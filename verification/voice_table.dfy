/** The compiled-in locale-to-default-voice table of the library crate
    (`DEFAULT_VOICES` in src/lib.rs), as the sequence of its 129 entries in
    source order.

    Every voice name of the source table is its locale, a dash, a speaker
    name and `Neural` (`"en-US" => "en-US-JennyNeural"`), so an entry is
    stored as the locale and the speaker name (`("en-US", "Jenny")`) and
    `VoiceName` rebuilds the exact string of the source.

    The module proves that the locales strictly ascend, hence that no
    locale appears twice, and that every locale is a lower-case language
    code, a dash and an upper-case country code. For the verifier's sake the literal is cut into runs of
    eight entries: `RunN()` holds entries N to N + 7 and `TableFromN()` is
    the table from entry N on. */
module VoiceTable {
  import opened Text

  datatype Entry = Entry(locale: string, speaker: string)

  /** The voice name the source table maps the entry's locale to. */
  function VoiceName(e: Entry): (v: string)
    ensures StartsWith(v, e.locale + "-") && EndsWith(v, "Neural")
  {
    StartsWithAppend(e.locale + "-", e.speaker + "Neural");
    EndsWithAppend(e.locale + "-" + e.speaker, "Neural");
    assert e.locale + "-" + e.speaker + "Neural" == (e.locale + "-") + (e.speaker + "Neural");
    e.locale + "-" + e.speaker + "Neural"
  }

  /** The whole table, in source order: 129 entries from Afrikaans
      (`af-ZA`) to Zulu (`zu-ZA`). */
  function Table(): (t: seq<Entry>)
    ensures |t| == 129
    ensures t[0] == Entry("af-ZA", "Adri") && t[128] == Entry("zu-ZA", "Thando")
  {
    TableFrom000()
  }

  /** Lexicographic order on locales by character code, comparing from position `i`. */
  predicate KeyLessFrom(a: string, b: string, i: nat)
    decreases |a| - i
  {
    i < |b| && (i >= |a| || a[i] < b[i] || (a[i] == b[i] && KeyLessFrom(a, b, i + 1)))
  }

  predicate KeyLess(a: string, b: string) {
    KeyLessFrom(a, b, 0)
  }

  predicate IsLower(c: char) { 'a' <= c <= 'z' }
  predicate IsUpper(c: char) { 'A' <= c <= 'Z' }

  /** A locale code as the lookup expects it: a lower-case language code
      of two or three letters, a dash, and an upper-case two-letter
      country code (`en-US`, `fil-PH`; not `en-us`, `en-uS` or `EN-US`). */
  predicate LocaleCode(locale: string) {
    && (|locale| == 5 || |locale| == 6)
    && IsLower(locale[0]) && IsLower(locale[1]) && (|locale| == 6 ==> IsLower(locale[2]))
    && locale[|locale| - 3] == '-'
    && IsUpper(locale[|locale| - 2]) && IsUpper(locale[|locale| - 1])
  }

  /** Every locale is a well-formed locale code and the locales strictly
      ascend, checked one entry and one neighbouring pair at a time. */
  predicate Checked(t: seq<Entry>) {
    |t| == 0 ||
    (LocaleCode(t[0].locale) && (|t| == 1 || KeyLess(t[0].locale, t[1].locale)) && Checked(t[1..]))
  }

  /** Two checked runs join into a checked run when the seam ascends. */
  lemma {:induction false} CheckedAppend(a: seq<Entry>, b: seq<Entry>)
    requires Checked(a) && Checked(b)
    requires |a| == 0 || |b| == 0 || KeyLess(a[|a| - 1].locale, b[0].locale)
    ensures Checked(a + b)
  {
    if |a| > 0 {
      assert (a + b)[1..] == a[1..] + b;
      CheckedAppend(a[1..], b);
      if |a| > 1 {
        assert (a + b)[1] == a[1];
      }
    } else {
      assert a + b == b;
    }
  }

  lemma TableChecked()
    ensures Checked(Table())
  {
    TableFrom000Checked();
  }

  function Run000(): seq<Entry> {
    [ Entry("af-ZA", "Adri"),
      Entry("am-ET", "Ameha"),
      Entry("ar-AE", "Fatima"),
      Entry("ar-BH", "Ali"),
      Entry("ar-DZ", "Amina"),
      Entry("ar-EG", "Salma"),
      Entry("ar-IQ", "Bassel"),
      Entry("ar-JO", "Sana") ]
  }

  function Run008(): seq<Entry> {
    [ Entry("ar-KW", "Fahed"),
      Entry("ar-LY", "Iman"),
      Entry("ar-MA", "Jamal"),
      Entry("ar-QA", "Amal"),
      Entry("ar-SA", "Hamed"),
      Entry("ar-SY", "Amany"),
      Entry("ar-TN", "Hedi"),
      Entry("ar-YE", "Maryam") ]
  }

  function Run016(): seq<Entry> {
    [ Entry("bg-BG", "Borislav"),
      Entry("bn-BD", "Nabanita"),
      Entry("bn-IN", "Bashkar"),
      Entry("ca-ES", "Joana"),
      Entry("cs-CZ", "Antonin"),
      Entry("cy-GB", "Aled"),
      Entry("da-DK", "Christel"),
      Entry("de-AT", "Ingrid") ]
  }

  function Run024(): seq<Entry> {
    [ Entry("de-CH", "Jan"),
      Entry("de-DE", "Katja"),
      Entry("el-GR", "Athina"),
      Entry("en-AU", "Natasha"),
      Entry("en-CA", "Clara"),
      Entry("en-GB", "Libby"),
      Entry("en-HK", "Sam"),
      Entry("en-IE", "Connor") ]
  }

  function Run032(): seq<Entry> {
    [ Entry("en-IN", "Neerja"),
      Entry("en-KE", "Asilia"),
      Entry("en-NG", "Abeo"),
      Entry("en-NZ", "Mitchell"),
      Entry("en-PH", "James"),
      Entry("en-SG", "Luna"),
      Entry("en-TZ", "Elimu"),
      Entry("en-US", "Jenny") ]
  }

  function Run040(): seq<Entry> {
    [ Entry("en-ZA", "Leah"),
      Entry("es-AR", "Elena"),
      Entry("es-BO", "Marcelo"),
      Entry("es-CL", "Catalina"),
      Entry("es-CO", "Gonzalo"),
      Entry("es-CR", "Juan"),
      Entry("es-CU", "Belkys"),
      Entry("es-DO", "Emilio") ]
  }

  function Run048(): seq<Entry> {
    [ Entry("es-EC", "Andrea"),
      Entry("es-ES", "Alvaro"),
      Entry("es-GQ", "Javier"),
      Entry("es-GT", "Andres"),
      Entry("es-HN", "Carlos"),
      Entry("es-MX", "Dalia"),
      Entry("es-NI", "Federico"),
      Entry("es-PA", "Margarita") ]
  }

  function Run056(): seq<Entry> {
    [ Entry("es-PE", "Alex"),
      Entry("es-PR", "Karina"),
      Entry("es-PY", "Mario"),
      Entry("es-SV", "Lorena"),
      Entry("es-US", "Alonso"),
      Entry("es-UY", "Mateo"),
      Entry("es-VE", "Paola"),
      Entry("et-EE", "Anu") ]
  }

  function Run064(): seq<Entry> {
    [ Entry("fa-IR", "Dilara"),
      Entry("fi-FI", "Selma"),
      Entry("fil-PH", "Angelo"),
      Entry("fr-BE", "Charline"),
      Entry("fr-CA", "Sylvie"),
      Entry("fr-CH", "Ariane"),
      Entry("fr-FR", "Denise"),
      Entry("ga-IE", "Colm") ]
  }

  function Run072(): seq<Entry> {
    [ Entry("gl-ES", "Roi"),
      Entry("gu-IN", "Dhwani"),
      Entry("he-IL", "Avri"),
      Entry("hi-IN", "Madhur"),
      Entry("hr-HR", "Gabrijela"),
      Entry("hu-HU", "Noemi"),
      Entry("id-ID", "Ardi"),
      Entry("is-IS", "Gudrun") ]
  }

  function Run080(): seq<Entry> {
    [ Entry("it-IT", "Isabella"),
      Entry("ja-JP", "Nanami"),
      Entry("jv-ID", "Dimas"),
      Entry("kk-KZ", "Aigul"),
      Entry("km-KH", "Piseth"),
      Entry("kn-IN", "Gagan"),
      Entry("ko-KR", "SunHi"),
      Entry("lo-LA", "Chanthavong") ]
  }

  function Run088(): seq<Entry> {
    [ Entry("lt-LT", "Leonas"),
      Entry("lv-LV", "Everita"),
      Entry("mk-MK", "Aleksandar"),
      Entry("ml-IN", "Midhun"),
      Entry("mr-IN", "Aarohi"),
      Entry("ms-MY", "Osman"),
      Entry("mt-MT", "Grace"),
      Entry("my-MM", "Nilar") ]
  }

  function Run096(): seq<Entry> {
    [ Entry("nb-NO", "Pernille"),
      Entry("nl-BE", "Arnaud"),
      Entry("nl-NL", "Colette"),
      Entry("pl-PL", "Agnieszka"),
      Entry("ps-AF", "GulNawaz"),
      Entry("pt-BR", "Francisca"),
      Entry("pt-PT", "Duarte"),
      Entry("ro-RO", "Alina") ]
  }

  function Run104(): seq<Entry> {
    [ Entry("ru-RU", "Svetlana"),
      Entry("si-LK", "Sameera"),
      Entry("sk-SK", "Lukas"),
      Entry("sl-SI", "Petra"),
      Entry("so-SO", "Muuse"),
      Entry("sr-RS", "Nicholas"),
      Entry("su-ID", "Jajang"),
      Entry("sv-SE", "Sofie") ]
  }

  function Run112(): seq<Entry> {
    [ Entry("sw-KE", "Rafiki"),
      Entry("sw-TZ", "Daudi"),
      Entry("ta-IN", "Pallavi"),
      Entry("ta-LK", "Kumar"),
      Entry("ta-SG", "Anbu"),
      Entry("te-IN", "Mohan"),
      Entry("th-TH", "Premwadee"),
      Entry("tr-TR", "Ahmet") ]
  }

  function Run120(): seq<Entry> {
    [ Entry("uk-UA", "Ostap"),
      Entry("ur-IN", "Gul"),
      Entry("ur-PK", "Asad"),
      Entry("uz-UZ", "Madina"),
      Entry("vi-VN", "HoaiMy"),
      Entry("zh-CN", "Xiaoxiao"),
      Entry("zh-HK", "HiuMaan"),
      Entry("zh-TW", "HsiaoChen") ]
  }

  function Run128(): seq<Entry> {
    [ Entry("zu-ZA", "Thando") ]
  }

  function TableFrom000(): seq<Entry> {
    Run000() + TableFrom008()
  }

  function TableFrom008(): seq<Entry> {
    Run008() + TableFrom016()
  }

  function TableFrom016(): seq<Entry> {
    Run016() + TableFrom024()
  }

  function TableFrom024(): seq<Entry> {
    Run024() + TableFrom032()
  }

  function TableFrom032(): seq<Entry> {
    Run032() + TableFrom040()
  }

  function TableFrom040(): seq<Entry> {
    Run040() + TableFrom048()
  }

  function TableFrom048(): seq<Entry> {
    Run048() + TableFrom056()
  }

  function TableFrom056(): seq<Entry> {
    Run056() + TableFrom064()
  }

  function TableFrom064(): seq<Entry> {
    Run064() + TableFrom072()
  }

  function TableFrom072(): seq<Entry> {
    Run072() + TableFrom080()
  }

  function TableFrom080(): seq<Entry> {
    Run080() + TableFrom088()
  }

  function TableFrom088(): seq<Entry> {
    Run088() + TableFrom096()
  }

  function TableFrom096(): seq<Entry> {
    Run096() + TableFrom104()
  }

  function TableFrom104(): seq<Entry> {
    Run104() + TableFrom112()
  }

  function TableFrom112(): seq<Entry> {
    Run112() + TableFrom120()
  }

  function TableFrom120(): seq<Entry> {
    Run120() + TableFrom128()
  }

  function TableFrom128(): seq<Entry> {
    Run128()
  }

  lemma Run128Checked()
    ensures Checked(Run128())
    ensures Run128()[0].locale == "zu-ZA" && Run128()[|Run128()| - 1].locale == "zu-ZA"
  {
    assert LocaleCode("zu-ZA");
  }

  lemma TableFrom128Checked()
    ensures Checked(TableFrom128())
    ensures TableFrom128()[0].locale == "zu-ZA"
  {
    Run128Checked();
  }

  lemma Run120Checked()
    ensures Checked(Run120())
    ensures Run120()[0].locale == "uk-UA" && Run120()[|Run120()| - 1].locale == "zh-TW"
  {
    assert LocaleCode("uk-UA");
    assert LocaleCode("ur-IN");
    assert LocaleCode("ur-PK");
    assert LocaleCode("uz-UZ");
    assert LocaleCode("vi-VN");
    assert LocaleCode("zh-CN");
    assert LocaleCode("zh-HK");
    assert LocaleCode("zh-TW");
    assert KeyLess("uk-UA", "ur-IN");
    assert KeyLess("ur-IN", "ur-PK");
    assert KeyLess("ur-PK", "uz-UZ");
    assert KeyLess("uz-UZ", "vi-VN");
    assert KeyLess("vi-VN", "zh-CN");
    assert KeyLess("zh-CN", "zh-HK");
    assert KeyLess("zh-HK", "zh-TW");
  }

  lemma TableFrom120Checked()
    ensures Checked(TableFrom120())
    ensures TableFrom120()[0].locale == "uk-UA"
  {
    Run120Checked();
    TableFrom128Checked();
    assert KeyLess("zh-TW", "zu-ZA");
    CheckedAppend(Run120(), TableFrom128());
  }

  lemma Run112Checked()
    ensures Checked(Run112())
    ensures Run112()[0].locale == "sw-KE" && Run112()[|Run112()| - 1].locale == "tr-TR"
  {
    assert LocaleCode("sw-KE");
    assert LocaleCode("sw-TZ");
    assert LocaleCode("ta-IN");
    assert LocaleCode("ta-LK");
    assert LocaleCode("ta-SG");
    assert LocaleCode("te-IN");
    assert LocaleCode("th-TH");
    assert LocaleCode("tr-TR");
    assert KeyLess("sw-KE", "sw-TZ");
    assert KeyLess("sw-TZ", "ta-IN");
    assert KeyLess("ta-IN", "ta-LK");
    assert KeyLess("ta-LK", "ta-SG");
    assert KeyLess("ta-SG", "te-IN");
    assert KeyLess("te-IN", "th-TH");
    assert KeyLess("th-TH", "tr-TR");
  }

  lemma TableFrom112Checked()
    ensures Checked(TableFrom112())
    ensures TableFrom112()[0].locale == "sw-KE"
  {
    Run112Checked();
    TableFrom120Checked();
    assert KeyLess("tr-TR", "uk-UA");
    CheckedAppend(Run112(), TableFrom120());
  }

  lemma Run104Checked()
    ensures Checked(Run104())
    ensures Run104()[0].locale == "ru-RU" && Run104()[|Run104()| - 1].locale == "sv-SE"
  {
    assert LocaleCode("ru-RU");
    assert LocaleCode("si-LK");
    assert LocaleCode("sk-SK");
    assert LocaleCode("sl-SI");
    assert LocaleCode("so-SO");
    assert LocaleCode("sr-RS");
    assert LocaleCode("su-ID");
    assert LocaleCode("sv-SE");
    assert KeyLess("ru-RU", "si-LK");
    assert KeyLess("si-LK", "sk-SK");
    assert KeyLess("sk-SK", "sl-SI");
    assert KeyLess("sl-SI", "so-SO");
    assert KeyLess("so-SO", "sr-RS");
    assert KeyLess("sr-RS", "su-ID");
    assert KeyLess("su-ID", "sv-SE");
  }

  lemma TableFrom104Checked()
    ensures Checked(TableFrom104())
    ensures TableFrom104()[0].locale == "ru-RU"
  {
    Run104Checked();
    TableFrom112Checked();
    assert KeyLess("sv-SE", "sw-KE");
    CheckedAppend(Run104(), TableFrom112());
  }

  lemma Run096Checked()
    ensures Checked(Run096())
    ensures Run096()[0].locale == "nb-NO" && Run096()[|Run096()| - 1].locale == "ro-RO"
  {
    assert LocaleCode("nb-NO");
    assert LocaleCode("nl-BE");
    assert LocaleCode("nl-NL");
    assert LocaleCode("pl-PL");
    assert LocaleCode("ps-AF");
    assert LocaleCode("pt-BR");
    assert LocaleCode("pt-PT");
    assert LocaleCode("ro-RO");
    assert KeyLess("nb-NO", "nl-BE");
    assert KeyLess("nl-BE", "nl-NL");
    assert KeyLess("nl-NL", "pl-PL");
    assert KeyLess("pl-PL", "ps-AF");
    assert KeyLess("ps-AF", "pt-BR");
    assert KeyLess("pt-BR", "pt-PT");
    assert KeyLess("pt-PT", "ro-RO");
  }

  lemma TableFrom096Checked()
    ensures Checked(TableFrom096())
    ensures TableFrom096()[0].locale == "nb-NO"
  {
    Run096Checked();
    TableFrom104Checked();
    assert KeyLess("ro-RO", "ru-RU");
    CheckedAppend(Run096(), TableFrom104());
  }

  lemma Run088Checked()
    ensures Checked(Run088())
    ensures Run088()[0].locale == "lt-LT" && Run088()[|Run088()| - 1].locale == "my-MM"
  {
    assert LocaleCode("lt-LT");
    assert LocaleCode("lv-LV");
    assert LocaleCode("mk-MK");
    assert LocaleCode("ml-IN");
    assert LocaleCode("mr-IN");
    assert LocaleCode("ms-MY");
    assert LocaleCode("mt-MT");
    assert LocaleCode("my-MM");
    assert KeyLess("lt-LT", "lv-LV");
    assert KeyLess("lv-LV", "mk-MK");
    assert KeyLess("mk-MK", "ml-IN");
    assert KeyLess("ml-IN", "mr-IN");
    assert KeyLess("mr-IN", "ms-MY");
    assert KeyLess("ms-MY", "mt-MT");
    assert KeyLess("mt-MT", "my-MM");
  }

  lemma TableFrom088Checked()
    ensures Checked(TableFrom088())
    ensures TableFrom088()[0].locale == "lt-LT"
  {
    Run088Checked();
    TableFrom096Checked();
    assert KeyLess("my-MM", "nb-NO");
    CheckedAppend(Run088(), TableFrom096());
  }

  lemma Run080Checked()
    ensures Checked(Run080())
    ensures Run080()[0].locale == "it-IT" && Run080()[|Run080()| - 1].locale == "lo-LA"
  {
    assert LocaleCode("it-IT");
    assert LocaleCode("ja-JP");
    assert LocaleCode("jv-ID");
    assert LocaleCode("kk-KZ");
    assert LocaleCode("km-KH");
    assert LocaleCode("kn-IN");
    assert LocaleCode("ko-KR");
    assert LocaleCode("lo-LA");
    assert KeyLess("it-IT", "ja-JP");
    assert KeyLess("ja-JP", "jv-ID");
    assert KeyLess("jv-ID", "kk-KZ");
    assert KeyLess("kk-KZ", "km-KH");
    assert KeyLess("km-KH", "kn-IN");
    assert KeyLess("kn-IN", "ko-KR");
    assert KeyLess("ko-KR", "lo-LA");
  }

  lemma TableFrom080Checked()
    ensures Checked(TableFrom080())
    ensures TableFrom080()[0].locale == "it-IT"
  {
    Run080Checked();
    TableFrom088Checked();
    assert KeyLess("lo-LA", "lt-LT");
    CheckedAppend(Run080(), TableFrom088());
  }

  lemma Run072Checked()
    ensures Checked(Run072())
    ensures Run072()[0].locale == "gl-ES" && Run072()[|Run072()| - 1].locale == "is-IS"
  {
    assert LocaleCode("gl-ES");
    assert LocaleCode("gu-IN");
    assert LocaleCode("he-IL");
    assert LocaleCode("hi-IN");
    assert LocaleCode("hr-HR");
    assert LocaleCode("hu-HU");
    assert LocaleCode("id-ID");
    assert LocaleCode("is-IS");
    assert KeyLess("gl-ES", "gu-IN");
    assert KeyLess("gu-IN", "he-IL");
    assert KeyLess("he-IL", "hi-IN");
    assert KeyLess("hi-IN", "hr-HR");
    assert KeyLess("hr-HR", "hu-HU");
    assert KeyLess("hu-HU", "id-ID");
    assert KeyLess("id-ID", "is-IS");
  }

  lemma TableFrom072Checked()
    ensures Checked(TableFrom072())
    ensures TableFrom072()[0].locale == "gl-ES"
  {
    Run072Checked();
    TableFrom080Checked();
    assert KeyLess("is-IS", "it-IT");
    CheckedAppend(Run072(), TableFrom080());
  }

  lemma Run064Checked()
    ensures Checked(Run064())
    ensures Run064()[0].locale == "fa-IR" && Run064()[|Run064()| - 1].locale == "ga-IE"
  {
    assert LocaleCode("fa-IR");
    assert LocaleCode("fi-FI");
    assert LocaleCode("fil-PH");
    assert LocaleCode("fr-BE");
    assert LocaleCode("fr-CA");
    assert LocaleCode("fr-CH");
    assert LocaleCode("fr-FR");
    assert LocaleCode("ga-IE");
    assert KeyLess("fa-IR", "fi-FI");
    assert KeyLess("fi-FI", "fil-PH");
    assert KeyLess("fil-PH", "fr-BE");
    assert KeyLess("fr-BE", "fr-CA");
    assert KeyLess("fr-CA", "fr-CH");
    assert KeyLess("fr-CH", "fr-FR");
    assert KeyLess("fr-FR", "ga-IE");
  }

  lemma TableFrom064Checked()
    ensures Checked(TableFrom064())
    ensures TableFrom064()[0].locale == "fa-IR"
  {
    Run064Checked();
    TableFrom072Checked();
    assert KeyLess("ga-IE", "gl-ES");
    CheckedAppend(Run064(), TableFrom072());
  }

  lemma Run056Checked()
    ensures Checked(Run056())
    ensures Run056()[0].locale == "es-PE" && Run056()[|Run056()| - 1].locale == "et-EE"
  {
    assert LocaleCode("es-PE");
    assert LocaleCode("es-PR");
    assert LocaleCode("es-PY");
    assert LocaleCode("es-SV");
    assert LocaleCode("es-US");
    assert LocaleCode("es-UY");
    assert LocaleCode("es-VE");
    assert LocaleCode("et-EE");
    assert KeyLess("es-PE", "es-PR");
    assert KeyLess("es-PR", "es-PY");
    assert KeyLess("es-PY", "es-SV");
    assert KeyLess("es-SV", "es-US");
    assert KeyLess("es-US", "es-UY");
    assert KeyLess("es-UY", "es-VE");
    assert KeyLess("es-VE", "et-EE");
  }

  lemma TableFrom056Checked()
    ensures Checked(TableFrom056())
    ensures TableFrom056()[0].locale == "es-PE"
  {
    Run056Checked();
    TableFrom064Checked();
    assert KeyLess("et-EE", "fa-IR");
    CheckedAppend(Run056(), TableFrom064());
  }

  lemma Run048Checked()
    ensures Checked(Run048())
    ensures Run048()[0].locale == "es-EC" && Run048()[|Run048()| - 1].locale == "es-PA"
  {
    assert LocaleCode("es-EC");
    assert LocaleCode("es-ES");
    assert LocaleCode("es-GQ");
    assert LocaleCode("es-GT");
    assert LocaleCode("es-HN");
    assert LocaleCode("es-MX");
    assert LocaleCode("es-NI");
    assert LocaleCode("es-PA");
    assert KeyLess("es-EC", "es-ES");
    assert KeyLess("es-ES", "es-GQ");
    assert KeyLess("es-GQ", "es-GT");
    assert KeyLess("es-GT", "es-HN");
    assert KeyLess("es-HN", "es-MX");
    assert KeyLess("es-MX", "es-NI");
    assert KeyLess("es-NI", "es-PA");
  }

  lemma TableFrom048Checked()
    ensures Checked(TableFrom048())
    ensures TableFrom048()[0].locale == "es-EC"
  {
    Run048Checked();
    TableFrom056Checked();
    assert KeyLess("es-PA", "es-PE");
    CheckedAppend(Run048(), TableFrom056());
  }

  lemma Run040Checked()
    ensures Checked(Run040())
    ensures Run040()[0].locale == "en-ZA" && Run040()[|Run040()| - 1].locale == "es-DO"
  {
    assert LocaleCode("en-ZA");
    assert LocaleCode("es-AR");
    assert LocaleCode("es-BO");
    assert LocaleCode("es-CL");
    assert LocaleCode("es-CO");
    assert LocaleCode("es-CR");
    assert LocaleCode("es-CU");
    assert LocaleCode("es-DO");
    assert KeyLess("en-ZA", "es-AR");
    assert KeyLess("es-AR", "es-BO");
    assert KeyLess("es-BO", "es-CL");
    assert KeyLess("es-CL", "es-CO");
    assert KeyLess("es-CO", "es-CR");
    assert KeyLess("es-CR", "es-CU");
    assert KeyLess("es-CU", "es-DO");
  }

  lemma TableFrom040Checked()
    ensures Checked(TableFrom040())
    ensures TableFrom040()[0].locale == "en-ZA"
  {
    Run040Checked();
    TableFrom048Checked();
    assert KeyLess("es-DO", "es-EC");
    CheckedAppend(Run040(), TableFrom048());
  }

  lemma Run032Checked()
    ensures Checked(Run032())
    ensures Run032()[0].locale == "en-IN" && Run032()[|Run032()| - 1].locale == "en-US"
  {
    assert LocaleCode("en-IN");
    assert LocaleCode("en-KE");
    assert LocaleCode("en-NG");
    assert LocaleCode("en-NZ");
    assert LocaleCode("en-PH");
    assert LocaleCode("en-SG");
    assert LocaleCode("en-TZ");
    assert LocaleCode("en-US");
    assert KeyLess("en-IN", "en-KE");
    assert KeyLess("en-KE", "en-NG");
    assert KeyLess("en-NG", "en-NZ");
    assert KeyLess("en-NZ", "en-PH");
    assert KeyLess("en-PH", "en-SG");
    assert KeyLess("en-SG", "en-TZ");
    assert KeyLess("en-TZ", "en-US");
  }

  lemma TableFrom032Checked()
    ensures Checked(TableFrom032())
    ensures TableFrom032()[0].locale == "en-IN"
  {
    Run032Checked();
    TableFrom040Checked();
    assert KeyLess("en-US", "en-ZA");
    CheckedAppend(Run032(), TableFrom040());
  }

  lemma Run024Checked()
    ensures Checked(Run024())
    ensures Run024()[0].locale == "de-CH" && Run024()[|Run024()| - 1].locale == "en-IE"
  {
    assert LocaleCode("de-CH");
    assert LocaleCode("de-DE");
    assert LocaleCode("el-GR");
    assert LocaleCode("en-AU");
    assert LocaleCode("en-CA");
    assert LocaleCode("en-GB");
    assert LocaleCode("en-HK");
    assert LocaleCode("en-IE");
    assert KeyLess("de-CH", "de-DE");
    assert KeyLess("de-DE", "el-GR");
    assert KeyLess("el-GR", "en-AU");
    assert KeyLess("en-AU", "en-CA");
    assert KeyLess("en-CA", "en-GB");
    assert KeyLess("en-GB", "en-HK");
    assert KeyLess("en-HK", "en-IE");
  }

  lemma TableFrom024Checked()
    ensures Checked(TableFrom024())
    ensures TableFrom024()[0].locale == "de-CH"
  {
    Run024Checked();
    TableFrom032Checked();
    assert KeyLess("en-IE", "en-IN");
    CheckedAppend(Run024(), TableFrom032());
  }

  lemma Run016Checked()
    ensures Checked(Run016())
    ensures Run016()[0].locale == "bg-BG" && Run016()[|Run016()| - 1].locale == "de-AT"
  {
    assert LocaleCode("bg-BG");
    assert LocaleCode("bn-BD");
    assert LocaleCode("bn-IN");
    assert LocaleCode("ca-ES");
    assert LocaleCode("cs-CZ");
    assert LocaleCode("cy-GB");
    assert LocaleCode("da-DK");
    assert LocaleCode("de-AT");
    assert KeyLess("bg-BG", "bn-BD");
    assert KeyLess("bn-BD", "bn-IN");
    assert KeyLess("bn-IN", "ca-ES");
    assert KeyLess("ca-ES", "cs-CZ");
    assert KeyLess("cs-CZ", "cy-GB");
    assert KeyLess("cy-GB", "da-DK");
    assert KeyLess("da-DK", "de-AT");
  }

  lemma TableFrom016Checked()
    ensures Checked(TableFrom016())
    ensures TableFrom016()[0].locale == "bg-BG"
  {
    Run016Checked();
    TableFrom024Checked();
    assert KeyLess("de-AT", "de-CH");
    CheckedAppend(Run016(), TableFrom024());
  }

  lemma Run008Checked()
    ensures Checked(Run008())
    ensures Run008()[0].locale == "ar-KW" && Run008()[|Run008()| - 1].locale == "ar-YE"
  {
    assert LocaleCode("ar-KW");
    assert LocaleCode("ar-LY");
    assert LocaleCode("ar-MA");
    assert LocaleCode("ar-QA");
    assert LocaleCode("ar-SA");
    assert LocaleCode("ar-SY");
    assert LocaleCode("ar-TN");
    assert LocaleCode("ar-YE");
    assert KeyLess("ar-KW", "ar-LY");
    assert KeyLess("ar-LY", "ar-MA");
    assert KeyLess("ar-MA", "ar-QA");
    assert KeyLess("ar-QA", "ar-SA");
    assert KeyLess("ar-SA", "ar-SY");
    assert KeyLess("ar-SY", "ar-TN");
    assert KeyLess("ar-TN", "ar-YE");
  }

  lemma TableFrom008Checked()
    ensures Checked(TableFrom008())
    ensures TableFrom008()[0].locale == "ar-KW"
  {
    Run008Checked();
    TableFrom016Checked();
    assert KeyLess("ar-YE", "bg-BG");
    CheckedAppend(Run008(), TableFrom016());
  }

  lemma Run000Checked()
    ensures Checked(Run000())
    ensures Run000()[0].locale == "af-ZA" && Run000()[|Run000()| - 1].locale == "ar-JO"
  {
    assert LocaleCode("af-ZA");
    assert LocaleCode("am-ET");
    assert LocaleCode("ar-AE");
    assert LocaleCode("ar-BH");
    assert LocaleCode("ar-DZ");
    assert LocaleCode("ar-EG");
    assert LocaleCode("ar-IQ");
    assert LocaleCode("ar-JO");
    assert KeyLess("af-ZA", "am-ET");
    assert KeyLess("am-ET", "ar-AE");
    assert KeyLess("ar-AE", "ar-BH");
    assert KeyLess("ar-BH", "ar-DZ");
    assert KeyLess("ar-DZ", "ar-EG");
    assert KeyLess("ar-EG", "ar-IQ");
    assert KeyLess("ar-IQ", "ar-JO");
  }

  lemma TableFrom000Checked()
    ensures Checked(TableFrom000())
    ensures TableFrom000()[0].locale == "af-ZA"
  {
    Run000Checked();
    TableFrom008Checked();
    assert KeyLess("ar-JO", "ar-KW");
    CheckedAppend(Run000(), TableFrom008());
  }

}
