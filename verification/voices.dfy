/** `get_default_voice_by_locale` of the library crate (src/lib.rs): an
    exact, case-sensitive lookup of a locale in `DEFAULT_VOICES`. */
module Voices {
  import opened Wrappers
  import opened Text
  import opened VoiceTable

  /** The locale is a key of the table. */
  predicate IsKnownLocale(locale: string) {
    exists i :: 0 <= i < |Table()| && Table()[i].locale == locale
  }

  /** The first entry of `t` for `locale`. */
  function FindEntry(t: seq<Entry>, locale: string): (r: Option<Entry>)
    ensures r.None? <==> forall i :: 0 <= i < |t| ==> t[i].locale != locale
    ensures r.Some? ==> exists i :: 0 <= i < |t| && t[i] == r.value && r.value.locale == locale
  {
    if |t| == 0 then None
    else if t[0].locale == locale then Some(t[0])
    else
      var r := FindEntry(t[1..], locale);
      assert forall i :: 0 <= i < |t[1..]| ==> t[1..][i] == t[i + 1];
      r
  }

  /** The default voice of a locale, absent for a locale the table lacks. */
  function GetDefaultVoiceByLocale(locale: string): (r: Option<string>)
    ensures r.Some? <==> IsKnownLocale(locale)
    ensures r.Some? ==> StartsWith(r.value, locale + "-") && EndsWith(r.value, "Neural")
  {
    match FindEntry(Table(), locale)
    case None => None
    case Some(e) => Some(VoiceName(e))
  }

  lemma {:induction false} KeyLessTransitive(a: string, b: string, c: string, i: nat)
    requires KeyLessFrom(a, b, i) && KeyLessFrom(b, c, i)
    ensures KeyLessFrom(a, c, i)
    decreases |a| - i
  {
    if i < |a| && a[i] == b[i] && b[i] == c[i] {
      KeyLessTransitive(a, b, c, i + 1);
    }
  }

  lemma {:induction false} KeyLessIrreflexive(a: string, i: nat)
    ensures !KeyLessFrom(a, a, i)
    decreases |a| - i
  {
    if i < |a| {
      KeyLessIrreflexive(a, i + 1);
    }
  }

  /** In a checked run every locale is below every later one. */
  lemma {:induction false} CheckedSorted(t: seq<Entry>)
    requires Checked(t)
    ensures forall i, j :: 0 <= i < j < |t| ==> KeyLess(t[i].locale, t[j].locale)
    ensures forall i :: 0 <= i < |t| ==> LocaleCode(t[i].locale)
  {
    if |t| > 0 {
      CheckedSorted(t[1..]);
      forall i, j | 0 <= i < j < |t|
        ensures KeyLess(t[i].locale, t[j].locale)
      {
        if i > 0 {
          assert t[i] == t[1..][i - 1] && t[j] == t[1..][j - 1];
        } else if j > 1 {
          assert t[j] == t[1..][j - 1] && t[1] == t[1..][0];
          KeyLessTransitive(t[0].locale, t[1].locale, t[j].locale, 0);
        }
      }
      forall i | 0 < i < |t|
        ensures LocaleCode(t[i].locale)
      {
        assert t[i] == t[1..][i - 1];
      }
    }
  }

  /** No locale appears twice in the table, and each is a well-formed locale code. */
  lemma TableLocales()
    ensures forall i, j :: 0 <= i < j < |Table()| ==> Table()[i].locale != Table()[j].locale
    ensures forall i :: 0 <= i < |Table()| ==> LocaleCode(Table()[i].locale)
  {
    TableChecked();
    CheckedSorted(Table());
    forall i, j | 0 <= i < j < |Table()|
      ensures Table()[i].locale != Table()[j].locale
    {
      if Table()[i].locale == Table()[j].locale {
        KeyLessIrreflexive(Table()[i].locale, 0);
      }
    }
  }

  /** The lookup returns a voice exactly when some entry pairs the locale
      with it: since locales are distinct, that entry is the only one. */
  lemma LookupMatchesTable(locale: string, voice: string)
    ensures GetDefaultVoiceByLocale(locale) == Some(voice) <==>
            exists i :: 0 <= i < |Table()| && Table()[i].locale == locale && VoiceName(Table()[i]) == voice
  {
    TableLocales();
    var t := Table();
    if i :| 0 <= i < |t| && t[i].locale == locale && VoiceName(t[i]) == voice {
      var r := FindEntry(t, locale);
      assert r.Some?;
      var j :| 0 <= j < |t| && t[j] == r.value && r.value.locale == locale;
      assert i == j;
    }
  }

  /** The lookup is exact and case-sensitive: a string that is not a
      lower-case language code, a dash and an upper-case country code has
      no default voice. */
  lemma MalformedLocaleUnknown(locale: string)
    requires !LocaleCode(locale)
    ensures GetDefaultVoiceByLocale(locale) == None
  {
    TableLocales();
  }

  /** `en-us`, `en-uS` and `EN-US` have no default voice. */
  lemma MiscasedLocalesUnknown()
    ensures GetDefaultVoiceByLocale("en-us") == None
    ensures GetDefaultVoiceByLocale("en-uS") == None
    ensures GetDefaultVoiceByLocale("EN-US") == None
  {
    assert !IsUpper("en-us"[3]);
    MalformedLocaleUnknown("en-us");
    assert !IsUpper("en-uS"[3]);
    MalformedLocaleUnknown("en-uS");
    assert !IsLower("EN-US"[0]);
    MalformedLocaleUnknown("EN-US");
  }

  /** A table entry's locale looks up that entry's voice. */
  lemma EntryLookup(i: nat, locale: string, speaker: string, voice: string)
    requires i < |Table()| && Table()[i] == Entry(locale, speaker)
    requires voice == locale + "-" + speaker + "Neural"
    ensures GetDefaultVoiceByLocale(locale) == Some(voice)
  {
    LookupMatchesTable(locale, VoiceName(Table()[i]));
  }

  lemma EnUsAt39()
    ensures Table()[39] == Entry("en-US", "Jenny")
  {
    assert |Run000()| == 8 && |Run008()| == 8 && |Run016()| == 8 && |Run024()| == 8;
    assert TableFrom032()[7] == Run032()[7] == Entry("en-US", "Jenny");
    assert TableFrom024()[15] == TableFrom032()[7];
    assert TableFrom016()[23] == TableFrom024()[15];
    assert TableFrom008()[31] == TableFrom016()[23];
    assert TableFrom000()[39] == TableFrom008()[31];
  }

  lemma DeDeAt25()
    ensures Table()[25] == Entry("de-DE", "Katja")
  {
    assert |Run000()| == 8 && |Run008()| == 8 && |Run016()| == 8;
    assert TableFrom024()[1] == Run024()[1] == Entry("de-DE", "Katja");
    assert TableFrom016()[9] == TableFrom024()[1];
    assert TableFrom008()[17] == TableFrom016()[9];
    assert TableFrom000()[25] == TableFrom008()[17];
  }

  lemma FrFrAt70()
    ensures Table()[70] == Entry("fr-FR", "Denise")
  {
    assert |Run000()| == 8 && |Run008()| == 8 && |Run016()| == 8 && |Run024()| == 8;
    assert |Run032()| == 8 && |Run040()| == 8 && |Run048()| == 8 && |Run056()| == 8;
    assert TableFrom064()[6] == Run064()[6] == Entry("fr-FR", "Denise");
    assert TableFrom056()[14] == TableFrom064()[6];
    assert TableFrom048()[22] == TableFrom056()[14];
    assert TableFrom040()[30] == TableFrom048()[22];
    assert TableFrom032()[38] == TableFrom040()[30];
    assert TableFrom024()[46] == TableFrom032()[38];
    assert TableFrom016()[54] == TableFrom024()[46];
    assert TableFrom008()[62] == TableFrom016()[54];
    assert TableFrom000()[70] == TableFrom008()[62];
  }

  /** The fallback locale of the text resolver, `en-US`, has a default voice. */
  lemma EnUsDefaultVoice()
    ensures GetDefaultVoiceByLocale("en-US") == Some("en-US-JennyNeural")
  {
    EnUsAt39();
    EntryLookup(39, "en-US", "Jenny", "en-US-JennyNeural");
  }

  lemma DeDeDefaultVoice()
    ensures GetDefaultVoiceByLocale("de-DE") == Some("de-DE-KatjaNeural")
  {
    DeDeAt25();
    EntryLookup(25, "de-DE", "Katja", "de-DE-KatjaNeural");
  }

  lemma FrFrDefaultVoice()
    ensures GetDefaultVoiceByLocale("fr-FR") == Some("fr-FR-DeniseNeural")
  {
    FrFrAt70();
    EntryLookup(70, "fr-FR", "Denise", "fr-FR-DeniseNeural");
  }
}
