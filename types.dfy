/**
 * The backend's data model: the request enumerations, the language catalogue with its
 * lookup, validation and grouping by family, the generation request's defaults and the
 * agent error record (backend/types.py).
 */
module Types {
  import opened Wrappers
  import opened Seqs

  /** The kinds of content a request may ask for, with their wire values. */
  datatype ContentType = Email | Newsletter | SocialPost | Article {
    function Value(): string {
      match this
      case Email => "email"
      case Newsletter => "newsletter"
      case SocialPost => "social-post"
      case Article => "article"
    }
  }

  datatype Tone = Professional | Casual | Friendly | Formal {
    function Value(): string {
      match this
      case Professional => "professional"
      case Casual => "casual"
      case Friendly => "friendly"
      case Formal => "formal"
    }
  }

  datatype Length = Short | Medium | Long {
    function Value(): string {
      match this
      case Short => "short"
      case Medium => "medium"
      case Long => "long"
    }
  }

  /** Reading a wire value back into the enumeration; anything else is rejected. */
  function ParseContentType(s: string): (r: Option<ContentType>)
    ensures r.Some? ==> r.value.Value() == s
    ensures forall t: ContentType :: t.Value() == s ==> r == Some(t)
  {
    if s == "email" then Some(Email)
    else if s == "newsletter" then Some(Newsletter)
    else if s == "social-post" then Some(SocialPost)
    else if s == "article" then Some(Article)
    else None
  }

  function ParseTone(s: string): (r: Option<Tone>)
    ensures r.Some? ==> r.value.Value() == s
    ensures forall t: Tone :: t.Value() == s ==> r == Some(t)
  {
    if s == "professional" then Some(Professional)
    else if s == "casual" then Some(Casual)
    else if s == "friendly" then Some(Friendly)
    else if s == "formal" then Some(Formal)
    else None
  }

  function ParseLength(s: string): (r: Option<Length>)
    ensures r.Some? ==> r.value.Value() == s
    ensures forall t: Length :: t.Value() == s ==> r == Some(t)
  {
    if s == "short" then Some(Short)
    else if s == "medium" then Some(Medium)
    else if s == "long" then Some(Long)
    else None
  }

  /** One catalogue record. */
  datatype Language = Language(code: string, name: string, nativeName: string, family: string)

  const IndoEuropean1: seq<Language> := [
    Language("en", "English", "English", "Indo-European"),
    Language("fr", "French", "Français", "Indo-European"),
    Language("pt", "Portuguese", "Português", "Indo-European"),
    Language("de", "German", "Deutsch", "Indo-European")
  ]

  const IndoEuropean2: seq<Language> := [
    Language("ro", "Romanian", "Română", "Indo-European"),
    Language("sv", "Swedish", "Svenska", "Indo-European"),
    Language("da", "Danish", "Dansk", "Indo-European"),
    Language("bg", "Bulgarian", "Български", "Indo-European")
  ]

  const IndoEuropean3: seq<Language> := [
    Language("ru", "Russian", "Русский", "Indo-European"),
    Language("cs", "Czech", "Čeština", "Indo-European"),
    Language("el", "Greek", "Ελληνικά", "Indo-European"),
    Language("uk", "Ukrainian", "Українська", "Indo-European")
  ]

  const IndoEuropean4: seq<Language> := [
    Language("es", "Spanish", "Español", "Indo-European"),
    Language("nl", "Dutch", "Nederlands", "Indo-European"),
    Language("sk", "Slovak", "Slovenčina", "Indo-European"),
    Language("hr", "Croatian", "Hrvatski", "Indo-European")
  ]

  const IndoEuropean5: seq<Language> := [
    Language("pl", "Polish", "Polski", "Indo-European"),
    Language("lt", "Lithuanian", "Lietuvių", "Indo-European"),
    Language("nb", "Norwegian Bokmål", "Norsk Bokmål", "Indo-European"),
    Language("nn", "Norwegian Nynorsk", "Norsk Nynorsk", "Indo-European")
  ]

  const IndoEuropean6: seq<Language> := [
    Language("fa", "Persian", "فارسی", "Indo-European"),
    Language("sl", "Slovenian", "Slovenščina", "Indo-European"),
    Language("gu", "Gujarati", "ગુજરાતી", "Indo-European"),
    Language("lv", "Latvian", "Latviešu", "Indo-European")
  ]

  const IndoEuropean7: seq<Language> := [
    Language("it", "Italian", "Italiano", "Indo-European"),
    Language("oc", "Occitan", "Occitan", "Indo-European"),
    Language("ne", "Nepali", "नेपाली", "Indo-European"),
    Language("mr", "Marathi", "मराठी", "Indo-European")
  ]

  const IndoEuropean8: seq<Language> := [
    Language("be", "Belarusian", "Беларуская", "Indo-European"),
    Language("sr", "Serbian", "Српски", "Indo-European"),
    Language("lb", "Luxembourgish", "Lëtzebuergesch", "Indo-European"),
    Language("vec", "Venetian", "Vèneto", "Indo-European")
  ]

  const IndoEuropean9: seq<Language> := [
    Language("as", "Assamese", "অসমীয়া", "Indo-European"),
    Language("cy", "Welsh", "Cymraeg", "Indo-European"),
    Language("szl", "Silesian", "Ślōnski", "Indo-European"),
    Language("ast", "Asturian", "Asturianu", "Indo-European")
  ]

  const IndoEuropean10: seq<Language> := [
    Language("hne", "Chhattisgarhi", "छत्तीसगढ़ी", "Indo-European"),
    Language("awa", "Awadhi", "अवधी", "Indo-European"),
    Language("mai", "Maithili", "मैथिली", "Indo-European"),
    Language("bho", "Bhojpuri", "भोजपुरी", "Indo-European")
  ]

  const IndoEuropean11: seq<Language> := [
    Language("sd", "Sindhi", "سنڌي", "Indo-European"),
    Language("ga", "Irish", "Gaeilge", "Indo-European"),
    Language("fo", "Faroese", "Føroyskt", "Indo-European"),
    Language("hi", "Hindi", "हिन्दी", "Indo-European")
  ]

  const IndoEuropean12: seq<Language> := [
    Language("pa", "Punjabi", "ਪੰਜਾਬੀ", "Indo-European"),
    Language("bn", "Bengali", "বাংলা", "Indo-European"),
    Language("or", "Oriya", "ଓଡ଼ିଆ", "Indo-European"),
    Language("tg", "Tajik", "Тоҷикӣ", "Indo-European")
  ]

  const IndoEuropean13: seq<Language> := [
    Language("yi", "Eastern Yiddish", "ייִדיש", "Indo-European"),
    Language("lmo", "Lombard", "Lumbaart", "Indo-European"),
    Language("lij", "Ligurian", "Ligure", "Indo-European"),
    Language("scn", "Sicilian", "Sicilianu", "Indo-European")
  ]

  const IndoEuropean14: seq<Language> := [
    Language("fur", "Friulian", "Furlan", "Indo-European"),
    Language("sc", "Sardinian", "Sardu", "Indo-European"),
    Language("gl", "Galician", "Galego", "Indo-European"),
    Language("ca", "Catalan", "Català", "Indo-European")
  ]

  const IndoEuropean15: seq<Language> := [
    Language("is", "Icelandic", "Íslenska", "Indo-European"),
    Language("sq", "Albanian", "Shqip", "Indo-European"),
    Language("li", "Limburgish", "Limburgs", "Indo-European"),
    Language("prs", "Dari", "دری", "Indo-European")
  ]

  const IndoEuropean16: seq<Language> := [
    Language("af", "Afrikaans", "Afrikaans", "Indo-European"),
    Language("mk", "Macedonian", "Македонски", "Indo-European"),
    Language("si", "Sinhala", "සිංහල", "Indo-European"),
    Language("ur", "Urdu", "اردو", "Indo-European")
  ]

  const IndoEuropean17: seq<Language> := [
    Language("mag", "Magahi", "मगही", "Indo-European"),
    Language("bs", "Bosnian", "Bosanski", "Indo-European"),
    Language("hy", "Armenian", "Հայերեն", "Indo-European")
  ]

  const SinoTibetan: seq<Language> := [
    Language("zh", "Chinese (Simplified)", "简体中文", "Sino-Tibetan"),
    Language("zh-TW", "Chinese (Traditional)", "繁體中文", "Sino-Tibetan"),
    Language("yue", "Cantonese", "粵語", "Sino-Tibetan"),
    Language("my", "Burmese", "မြန်မာ", "Sino-Tibetan")
  ]

  const AfroAsiatic1: seq<Language> := [
    Language("ar", "Arabic (Standard)", "العربية", "Afro-Asiatic"),
    Language("ar-SA", "Arabic (Najdi)", "العربية النجدية", "Afro-Asiatic"),
    Language("ar-LB", "Arabic (Levantine)", "العربية الشامية", "Afro-Asiatic"),
    Language("ar-EG", "Arabic (Egyptian)", "العربية المصرية", "Afro-Asiatic")
  ]

  const AfroAsiatic2: seq<Language> := [
    Language("ar-MA", "Arabic (Moroccan)", "العربية المغربية", "Afro-Asiatic"),
    Language("ar-IQ", "Arabic (Mesopotamian)", "العربية العراقية", "Afro-Asiatic"),
    Language("ar-YE", "Arabic (Ta'izzi-Adeni)", "العربية اليمنية", "Afro-Asiatic"),
    Language("ar-TN", "Arabic (Tunisian)", "العربية التونسية", "Afro-Asiatic")
  ]

  const AfroAsiatic3: seq<Language> := [
    Language("he", "Hebrew", "עברית", "Afro-Asiatic"),
    Language("mt", "Maltese", "Malti", "Afro-Asiatic")
  ]

  const Austronesian1: seq<Language> := [
    Language("id", "Indonesian", "Bahasa Indonesia", "Austronesian"),
    Language("ms", "Malay", "Bahasa Melayu", "Austronesian"),
    Language("tl", "Tagalog", "Tagalog", "Austronesian"),
    Language("ceb", "Cebuano", "Cebuano", "Austronesian")
  ]

  const Austronesian2: seq<Language> := [
    Language("jv", "Javanese", "Basa Jawa", "Austronesian"),
    Language("su", "Sundanese", "Basa Sunda", "Austronesian"),
    Language("min", "Minangkabau", "Baso Minangkabau", "Austronesian"),
    Language("ban", "Balinese", "Basa Bali", "Austronesian")
  ]

  const Austronesian3: seq<Language> := [
    Language("bjn", "Banjar", "Bahasa Banjar", "Austronesian"),
    Language("pag", "Pangasinan", "Salitan Pangasinan", "Austronesian"),
    Language("ilo", "Iloko", "Pagsasao nga Ilokano", "Austronesian"),
    Language("war", "Waray", "Winaray", "Austronesian")
  ]

  const Dravidian: seq<Language> := [
    Language("ta", "Tamil", "தமிழ்", "Dravidian"),
    Language("te", "Telugu", "తెలుగు", "Dravidian"),
    Language("kn", "Kannada", "ಕನ್ನಡ", "Dravidian"),
    Language("ml", "Malayalam", "മലയാळം", "Dravidian")
  ]

  const Turkic1: seq<Language> := [
    Language("tr", "Turkish", "Türkçe", "Turkic"),
    Language("az", "Azerbaijani", "Azərbaycan", "Turkic"),
    Language("uz", "Uzbek", "Oʻzbek", "Turkic"),
    Language("kk", "Kazakh", "Қазақша", "Turkic")
  ]

  const Turkic2: seq<Language> := [
    Language("ba", "Bashkir", "Башҡорт", "Turkic"),
    Language("tt", "Tatar", "Татар", "Turkic")
  ]

  const TaiKadai: seq<Language> := [
    Language("th", "Thai", "ไทย", "Tai-Kadai"),
    Language("lo", "Lao", "ລາວ", "Tai-Kadai")
  ]

  const Uralic: seq<Language> := [
    Language("fi", "Finnish", "Suomi", "Uralic"),
    Language("et", "Estonian", "Eesti", "Uralic"),
    Language("hu", "Hungarian", "Magyar", "Uralic")
  ]

  const Austroasiatic: seq<Language> := [
    Language("vi", "Vietnamese", "Tiếng Việt", "Austroasiatic"),
    Language("km", "Khmer", "ខ្មែរ", "Austroasiatic")
  ]

  const Other1: seq<Language> := [
    Language("ja", "Japanese", "日本語", "Japonic"),
    Language("ko", "Korean", "한국어", "Koreanic"),
    Language("ka", "Georgian", "ქართული", "Kartvelian"),
    Language("eu", "Basque", "Euskera", "Language Isolate")
  ]

  const Other2: seq<Language> := [
    Language("ht", "Haitian", "Kreyòl Ayisyen", "Creole"),
    Language("pap", "Papiamento", "Papiamentu", "Creole"),
    Language("kea", "Kabuverdianu", "Kriolu", "Creole"),
    Language("tpi", "Tok Pisin", "Tok Pisin", "Creole")
  ]

  const Other3: seq<Language> := [
    Language("sw", "Swahili", "Kiswahili", "Niger-Congo")
  ]

  const Entries0To7: seq<Language> := IndoEuropean1 + IndoEuropean2

  const Entries8To15: seq<Language> := IndoEuropean3 + IndoEuropean4

  const Entries0To15: seq<Language> := Entries0To7 + Entries8To15

  const Entries16To23: seq<Language> := IndoEuropean5 + IndoEuropean6

  const Entries24To31: seq<Language> := IndoEuropean7 + IndoEuropean8

  const Entries16To31: seq<Language> := Entries16To23 + Entries24To31

  const Entries0To31: seq<Language> := Entries0To15 + Entries16To31

  const Entries32To39: seq<Language> := IndoEuropean9 + IndoEuropean10

  const Entries40To47: seq<Language> := IndoEuropean11 + IndoEuropean12

  const Entries32To47: seq<Language> := Entries32To39 + Entries40To47

  const Entries48To55: seq<Language> := IndoEuropean13 + IndoEuropean14

  const Entries56To63: seq<Language> := IndoEuropean15 + IndoEuropean16

  const Entries48To63: seq<Language> := Entries48To55 + Entries56To63

  const Entries32To63: seq<Language> := Entries32To47 + Entries48To63

  const Entries0To63: seq<Language> := Entries0To31 + Entries32To63

  const Entries64To70: seq<Language> := IndoEuropean17 + SinoTibetan

  const Entries71To78: seq<Language> := AfroAsiatic1 + AfroAsiatic2

  const Entries64To78: seq<Language> := Entries64To70 + Entries71To78

  const Entries79To84: seq<Language> := AfroAsiatic3 + Austronesian1

  const Entries85To92: seq<Language> := Austronesian2 + Austronesian3

  const Entries79To92: seq<Language> := Entries79To84 + Entries85To92

  const Entries64To92: seq<Language> := Entries64To78 + Entries79To92

  const Entries93To100: seq<Language> := Dravidian + Turkic1

  const Entries101To104: seq<Language> := Turkic2 + TaiKadai

  const Entries93To104: seq<Language> := Entries93To100 + Entries101To104

  const Entries105To109: seq<Language> := Uralic + Austroasiatic

  const Entries114To118: seq<Language> := Other2 + Other3

  const Entries110To118: seq<Language> := Other1 + Entries114To118

  const Entries105To118: seq<Language> := Entries105To109 + Entries110To118

  const Entries93To118: seq<Language> := Entries93To104 + Entries105To118

  const Entries64To118: seq<Language> := Entries64To92 + Entries93To118

  /** All available languages, in catalogue order. */
  const Catalogue: seq<Language> := Entries0To63 + Entries64To118


  /** A numeric key built from a code's length and its first four characters. */
  function CharAt(s: string, k: nat): int {
    if k < |s| then s[k] as int else 0
  }

  function CodeKey(s: string): int {
    |s| + 8 * (CharAt(s, 0) + 128 * (CharAt(s, 1) + 128 * (CharAt(s, 2) + 128 * CharAt(s, 3))))
  }

  /** A search tree over the keys of the catalogue's codes, giving a code's catalogue position. */
  function IndexOfKey(k: int): nat {
    if k < 117674 then
      if k < 108466 then
        if k < 103322 then
          if k < 100226 then
            if k < 100146 then
              if k < 100122 then
                101
              else
                if k < 100130 then
                  55
                else
                  6
            else
              if k < 100178 then
                if k < 100154 then
                  20
                else
                  41
              else
                if k < 100186 then
                  110
                else
                  112
          else
            if k < 101234 then
              if k < 100258 then
                44
              else
                if k < 101218 then
                  93
                else
                  30
            else
              if k < 102298 then
                if k < 102266 then
                  18
                else
                  25
              else
                if k < 103242 then
                  53
                else
                  81
        else
          if k < 106258 then
            if k < 104258 then
              if k < 104210 then
                40
              else
                if k < 104226 then
                  28
                else
                  3
            else
              if k < 104354 then
                if k < 104306 then
                  79
                else
                  26
              else
                if k < 105226 then
                  94
                else
                  60
          else
            if k < 108338 then
              if k < 107426 then
                if k < 106402 then
                  7
                else
                  47
              else
                if k < 107474 then
                  103
                else
                  67
            else
              if k < 108386 then
                if k < 108354 then
                  105
                else
                  43
              else
                if k < 108442 then
                  58
                else
                  62
      else
        if k < 113450 then
          if k < 111418 then
            if k < 110442 then
              if k < 108490 then
                108
              else
                if k < 110426 then
                  48
                else
                  100
            else
              if k < 110506 then
                if k < 110490 then
                  61
                else
                  14
              else
                if k < 111402 then
                  11
                else
                  10
          else
            if k < 111514 then
              if k < 111474 then
                if k < 111466 then
                  54
                else
                  96
              else
                if k < 111490 then
                  13
                else
                  16
            else
              if k < 112474 then
                if k < 111522 then
                  21
                else
                  83
              else
                if k < 113426 then
                  109
                else
                  45
        else
          if k < 116634 then
            if k < 114482 then
              if k < 113498 then
                0
              else
                if k < 113522 then
                  95
                else
                  19
            else
              if k < 114530 then
                if k < 114522 then
                  42
                else
                  111
              else
                if k < 114578 then
                  104
                else
                  4
          else
            if k < 117610 then
              if k < 117554 then
                if k < 117514 then
                  57
                else
                  71
              else
                if k < 117570 then
                  1
                else
                  15
            else
              if k < 117658 then
                if k < 117626 then
                  27
                else
                  46
              else
                if k < 117666 then
                  29
                else
                  97
    else
      if k < 12949275 then
        if k < 120634 then
          if k < 119594 then
            if k < 118554 then
              if k < 118538 then
                63
              else
                if k < 118546 then
                  32
                else
                  65
            else
              if k < 118602 then
                if k < 118570 then
                  9
                else
                  12
              else
                if k < 118634 then
                  56
                else
                  82
          else
            if k < 119658 then
              if k < 119626 then
                if k < 119618 then
                  106
                else
                  114
              else
                if k < 119650 then
                  24
                else
                  17
            else
              if k < 119714 then
                if k < 119682 then
                  80
                else
                  2
              else
                if k < 120618 then
                  102
                else
                  113
        else
          if k < 122778 then
            if k < 120730 then
              if k < 120642 then
                22
              else
                if k < 120722 then
                  107
                else
                  8
            else
              if k < 121698 then
                if k < 121682 then
                  86
                else
                  85
              else
                if k < 121754 then
                  23
                else
                  5
          else
            if k < 125706 then
              if k < 124738 then
                if k < 124698 then
                  118
                else
                  33
              else
                if k < 124778 then
                  66
                else
                  70
            else
              if k < 12818267 then
                if k < 125866 then
                  98
                else
                  99
              else
                if k < 12836619 then
                  116
                else
                  37
      else
        if k < 14660427 then
          if k < 13878179 then
            if k < 13359051 then
              if k < 13080499 then
                84
              else
                if k < 13351747 then
                  31
                else
                  36
            else
              if k < 13600643 then
                if k < 13600619 then
                  69
                else
                  64
              else
                if k < 13862763 then
                  90
                else
                  38
          else
            if k < 14520219 then
              if k < 14281627 then
                if k < 14002019 then
                  117
                else
                  50
              else
                if k < 14518035 then
                  34
                else
                  88
            else
              if k < 14527251 then
                if k < 14526315 then
                  51
                else
                  87
              else
                if k < 14656275 then
                  89
                else
                  39
        else
          if k < 1163643661 then
            if k < 15042491 then
              if k < 14661475 then
                91
              else
                if k < 14780291 then
                  49
                else
                  115
            else
              if k < 15190915 then
                if k < 15062835 then
                  92
                else
                  52
              else
                if k < 15322891 then
                  59
                else
                  35
          else
            if k < 1398524685 then
              if k < 1281084173 then
                if k < 1230752525 then
                  74
                else
                  76
              else
                if k < 1297861389 then
                  73
                else
                  75
            else
              if k < 1415301901 then
                if k < 1415291861 then
                  72
                else
                  68
              else
                if k < 1499187981 then
                  78
                else
                  77
  }

  lemma IndoEuropean1Keys()
    ensures |IndoEuropean1| == 4
    ensures forall i :: 0 <= i < |IndoEuropean1| ==> IndexOfKey(CodeKey(IndoEuropean1[i].code)) == i + 0
  {
  }

  lemma IndoEuropean2Keys()
    ensures |IndoEuropean2| == 4
    ensures forall i :: 0 <= i < |IndoEuropean2| ==> IndexOfKey(CodeKey(IndoEuropean2[i].code)) == i + 4
  {
  }

  lemma IndoEuropean3Keys()
    ensures |IndoEuropean3| == 4
    ensures forall i :: 0 <= i < |IndoEuropean3| ==> IndexOfKey(CodeKey(IndoEuropean3[i].code)) == i + 8
  {
  }

  lemma IndoEuropean4Keys()
    ensures |IndoEuropean4| == 4
    ensures forall i :: 0 <= i < |IndoEuropean4| ==> IndexOfKey(CodeKey(IndoEuropean4[i].code)) == i + 12
  {
  }

  lemma IndoEuropean5Keys()
    ensures |IndoEuropean5| == 4
    ensures forall i :: 0 <= i < |IndoEuropean5| ==> IndexOfKey(CodeKey(IndoEuropean5[i].code)) == i + 16
  {
  }

  lemma IndoEuropean6Keys()
    ensures |IndoEuropean6| == 4
    ensures forall i :: 0 <= i < |IndoEuropean6| ==> IndexOfKey(CodeKey(IndoEuropean6[i].code)) == i + 20
  {
  }

  lemma IndoEuropean7Keys()
    ensures |IndoEuropean7| == 4
    ensures forall i :: 0 <= i < |IndoEuropean7| ==> IndexOfKey(CodeKey(IndoEuropean7[i].code)) == i + 24
  {
  }

  lemma IndoEuropean8Keys()
    ensures |IndoEuropean8| == 4
    ensures forall i :: 0 <= i < |IndoEuropean8| ==> IndexOfKey(CodeKey(IndoEuropean8[i].code)) == i + 28
  {
  }

  lemma IndoEuropean9Keys()
    ensures |IndoEuropean9| == 4
    ensures forall i :: 0 <= i < |IndoEuropean9| ==> IndexOfKey(CodeKey(IndoEuropean9[i].code)) == i + 32
  {
  }

  lemma IndoEuropean10Keys()
    ensures |IndoEuropean10| == 4
    ensures forall i :: 0 <= i < |IndoEuropean10| ==> IndexOfKey(CodeKey(IndoEuropean10[i].code)) == i + 36
  {
  }

  lemma IndoEuropean11Keys()
    ensures |IndoEuropean11| == 4
    ensures forall i :: 0 <= i < |IndoEuropean11| ==> IndexOfKey(CodeKey(IndoEuropean11[i].code)) == i + 40
  {
  }

  lemma IndoEuropean12Keys()
    ensures |IndoEuropean12| == 4
    ensures forall i :: 0 <= i < |IndoEuropean12| ==> IndexOfKey(CodeKey(IndoEuropean12[i].code)) == i + 44
  {
  }

  lemma IndoEuropean13Keys()
    ensures |IndoEuropean13| == 4
    ensures forall i :: 0 <= i < |IndoEuropean13| ==> IndexOfKey(CodeKey(IndoEuropean13[i].code)) == i + 48
  {
  }

  lemma IndoEuropean14Keys()
    ensures |IndoEuropean14| == 4
    ensures forall i :: 0 <= i < |IndoEuropean14| ==> IndexOfKey(CodeKey(IndoEuropean14[i].code)) == i + 52
  {
  }

  lemma IndoEuropean15Keys()
    ensures |IndoEuropean15| == 4
    ensures forall i :: 0 <= i < |IndoEuropean15| ==> IndexOfKey(CodeKey(IndoEuropean15[i].code)) == i + 56
  {
  }

  lemma IndoEuropean16Keys()
    ensures |IndoEuropean16| == 4
    ensures forall i :: 0 <= i < |IndoEuropean16| ==> IndexOfKey(CodeKey(IndoEuropean16[i].code)) == i + 60
  {
  }

  lemma IndoEuropean17Keys()
    ensures |IndoEuropean17| == 3
    ensures forall i :: 0 <= i < |IndoEuropean17| ==> IndexOfKey(CodeKey(IndoEuropean17[i].code)) == i + 64
  {
  }

  lemma SinoTibetanKeys()
    ensures |SinoTibetan| == 4
    ensures forall i :: 0 <= i < |SinoTibetan| ==> IndexOfKey(CodeKey(SinoTibetan[i].code)) == i + 67
  {
  }

  lemma AfroAsiatic1Keys()
    ensures |AfroAsiatic1| == 4
    ensures forall i :: 0 <= i < |AfroAsiatic1| ==> IndexOfKey(CodeKey(AfroAsiatic1[i].code)) == i + 71
  {
  }

  lemma AfroAsiatic2Keys()
    ensures |AfroAsiatic2| == 4
    ensures forall i :: 0 <= i < |AfroAsiatic2| ==> IndexOfKey(CodeKey(AfroAsiatic2[i].code)) == i + 75
  {
  }

  lemma AfroAsiatic3Keys()
    ensures |AfroAsiatic3| == 2
    ensures forall i :: 0 <= i < |AfroAsiatic3| ==> IndexOfKey(CodeKey(AfroAsiatic3[i].code)) == i + 79
  {
  }

  lemma Austronesian1Keys()
    ensures |Austronesian1| == 4
    ensures forall i :: 0 <= i < |Austronesian1| ==> IndexOfKey(CodeKey(Austronesian1[i].code)) == i + 81
  {
  }

  lemma Austronesian2Keys()
    ensures |Austronesian2| == 4
    ensures forall i :: 0 <= i < |Austronesian2| ==> IndexOfKey(CodeKey(Austronesian2[i].code)) == i + 85
  {
  }

  lemma Austronesian3Keys()
    ensures |Austronesian3| == 4
    ensures forall i :: 0 <= i < |Austronesian3| ==> IndexOfKey(CodeKey(Austronesian3[i].code)) == i + 89
  {
  }

  lemma DravidianKeys()
    ensures |Dravidian| == 4
    ensures forall i :: 0 <= i < |Dravidian| ==> IndexOfKey(CodeKey(Dravidian[i].code)) == i + 93
  {
  }

  lemma Turkic1Keys()
    ensures |Turkic1| == 4
    ensures forall i :: 0 <= i < |Turkic1| ==> IndexOfKey(CodeKey(Turkic1[i].code)) == i + 97
  {
  }

  lemma Turkic2Keys()
    ensures |Turkic2| == 2
    ensures forall i :: 0 <= i < |Turkic2| ==> IndexOfKey(CodeKey(Turkic2[i].code)) == i + 101
  {
  }

  lemma TaiKadaiKeys()
    ensures |TaiKadai| == 2
    ensures forall i :: 0 <= i < |TaiKadai| ==> IndexOfKey(CodeKey(TaiKadai[i].code)) == i + 103
  {
  }

  lemma UralicKeys()
    ensures |Uralic| == 3
    ensures forall i :: 0 <= i < |Uralic| ==> IndexOfKey(CodeKey(Uralic[i].code)) == i + 105
  {
  }

  lemma AustroasiaticKeys()
    ensures |Austroasiatic| == 2
    ensures forall i :: 0 <= i < |Austroasiatic| ==> IndexOfKey(CodeKey(Austroasiatic[i].code)) == i + 108
  {
  }

  lemma Other1Keys()
    ensures |Other1| == 4
    ensures forall i :: 0 <= i < |Other1| ==> IndexOfKey(CodeKey(Other1[i].code)) == i + 110
  {
  }

  lemma Other2Keys()
    ensures |Other2| == 4
    ensures forall i :: 0 <= i < |Other2| ==> IndexOfKey(CodeKey(Other2[i].code)) == i + 114
  {
  }

  lemma Other3Keys()
    ensures |Other3| == 1
    ensures forall i :: 0 <= i < |Other3| ==> IndexOfKey(CodeKey(Other3[i].code)) == i + 118
  {
  }

  lemma Entries0To7Keys()
    ensures |Entries0To7| == 8
    ensures forall i :: 0 <= i < |Entries0To7| ==> IndexOfKey(CodeKey(Entries0To7[i].code)) == i + 0
  {
    IndoEuropean1Keys();
    IndoEuropean2Keys();
    forall i | 0 <= i < |Entries0To7|
      ensures IndexOfKey(CodeKey(Entries0To7[i].code)) == i + 0
    {
      if i < 4 {
        assert Entries0To7[i] == IndoEuropean1[i];
      } else {
        assert Entries0To7[i] == IndoEuropean2[i - 4];
      }
    }
  }

  lemma Entries8To15Keys()
    ensures |Entries8To15| == 8
    ensures forall i :: 0 <= i < |Entries8To15| ==> IndexOfKey(CodeKey(Entries8To15[i].code)) == i + 8
  {
    IndoEuropean3Keys();
    IndoEuropean4Keys();
    forall i | 0 <= i < |Entries8To15|
      ensures IndexOfKey(CodeKey(Entries8To15[i].code)) == i + 8
    {
      if i < 4 {
        assert Entries8To15[i] == IndoEuropean3[i];
      } else {
        assert Entries8To15[i] == IndoEuropean4[i - 4];
      }
    }
  }

  lemma Entries0To15Keys()
    ensures |Entries0To15| == 16
    ensures forall i :: 0 <= i < |Entries0To15| ==> IndexOfKey(CodeKey(Entries0To15[i].code)) == i + 0
  {
    Entries0To7Keys();
    Entries8To15Keys();
    forall i | 0 <= i < |Entries0To15|
      ensures IndexOfKey(CodeKey(Entries0To15[i].code)) == i + 0
    {
      if i < 8 {
        assert Entries0To15[i] == Entries0To7[i];
      } else {
        assert Entries0To15[i] == Entries8To15[i - 8];
      }
    }
  }

  lemma Entries16To23Keys()
    ensures |Entries16To23| == 8
    ensures forall i :: 0 <= i < |Entries16To23| ==> IndexOfKey(CodeKey(Entries16To23[i].code)) == i + 16
  {
    IndoEuropean5Keys();
    IndoEuropean6Keys();
    forall i | 0 <= i < |Entries16To23|
      ensures IndexOfKey(CodeKey(Entries16To23[i].code)) == i + 16
    {
      if i < 4 {
        assert Entries16To23[i] == IndoEuropean5[i];
      } else {
        assert Entries16To23[i] == IndoEuropean6[i - 4];
      }
    }
  }

  lemma Entries24To31Keys()
    ensures |Entries24To31| == 8
    ensures forall i :: 0 <= i < |Entries24To31| ==> IndexOfKey(CodeKey(Entries24To31[i].code)) == i + 24
  {
    IndoEuropean7Keys();
    IndoEuropean8Keys();
    forall i | 0 <= i < |Entries24To31|
      ensures IndexOfKey(CodeKey(Entries24To31[i].code)) == i + 24
    {
      if i < 4 {
        assert Entries24To31[i] == IndoEuropean7[i];
      } else {
        assert Entries24To31[i] == IndoEuropean8[i - 4];
      }
    }
  }

  lemma Entries16To31Keys()
    ensures |Entries16To31| == 16
    ensures forall i :: 0 <= i < |Entries16To31| ==> IndexOfKey(CodeKey(Entries16To31[i].code)) == i + 16
  {
    Entries16To23Keys();
    Entries24To31Keys();
    forall i | 0 <= i < |Entries16To31|
      ensures IndexOfKey(CodeKey(Entries16To31[i].code)) == i + 16
    {
      if i < 8 {
        assert Entries16To31[i] == Entries16To23[i];
      } else {
        assert Entries16To31[i] == Entries24To31[i - 8];
      }
    }
  }

  lemma Entries0To31Keys()
    ensures |Entries0To31| == 32
    ensures forall i :: 0 <= i < |Entries0To31| ==> IndexOfKey(CodeKey(Entries0To31[i].code)) == i + 0
  {
    Entries0To15Keys();
    Entries16To31Keys();
    forall i | 0 <= i < |Entries0To31|
      ensures IndexOfKey(CodeKey(Entries0To31[i].code)) == i + 0
    {
      if i < 16 {
        assert Entries0To31[i] == Entries0To15[i];
      } else {
        assert Entries0To31[i] == Entries16To31[i - 16];
      }
    }
  }

  lemma Entries32To39Keys()
    ensures |Entries32To39| == 8
    ensures forall i :: 0 <= i < |Entries32To39| ==> IndexOfKey(CodeKey(Entries32To39[i].code)) == i + 32
  {
    IndoEuropean9Keys();
    IndoEuropean10Keys();
    forall i | 0 <= i < |Entries32To39|
      ensures IndexOfKey(CodeKey(Entries32To39[i].code)) == i + 32
    {
      if i < 4 {
        assert Entries32To39[i] == IndoEuropean9[i];
      } else {
        assert Entries32To39[i] == IndoEuropean10[i - 4];
      }
    }
  }

  lemma Entries40To47Keys()
    ensures |Entries40To47| == 8
    ensures forall i :: 0 <= i < |Entries40To47| ==> IndexOfKey(CodeKey(Entries40To47[i].code)) == i + 40
  {
    IndoEuropean11Keys();
    IndoEuropean12Keys();
    forall i | 0 <= i < |Entries40To47|
      ensures IndexOfKey(CodeKey(Entries40To47[i].code)) == i + 40
    {
      if i < 4 {
        assert Entries40To47[i] == IndoEuropean11[i];
      } else {
        assert Entries40To47[i] == IndoEuropean12[i - 4];
      }
    }
  }

  lemma Entries32To47Keys()
    ensures |Entries32To47| == 16
    ensures forall i :: 0 <= i < |Entries32To47| ==> IndexOfKey(CodeKey(Entries32To47[i].code)) == i + 32
  {
    Entries32To39Keys();
    Entries40To47Keys();
    forall i | 0 <= i < |Entries32To47|
      ensures IndexOfKey(CodeKey(Entries32To47[i].code)) == i + 32
    {
      if i < 8 {
        assert Entries32To47[i] == Entries32To39[i];
      } else {
        assert Entries32To47[i] == Entries40To47[i - 8];
      }
    }
  }

  lemma Entries48To55Keys()
    ensures |Entries48To55| == 8
    ensures forall i :: 0 <= i < |Entries48To55| ==> IndexOfKey(CodeKey(Entries48To55[i].code)) == i + 48
  {
    IndoEuropean13Keys();
    IndoEuropean14Keys();
    forall i | 0 <= i < |Entries48To55|
      ensures IndexOfKey(CodeKey(Entries48To55[i].code)) == i + 48
    {
      if i < 4 {
        assert Entries48To55[i] == IndoEuropean13[i];
      } else {
        assert Entries48To55[i] == IndoEuropean14[i - 4];
      }
    }
  }

  lemma Entries56To63Keys()
    ensures |Entries56To63| == 8
    ensures forall i :: 0 <= i < |Entries56To63| ==> IndexOfKey(CodeKey(Entries56To63[i].code)) == i + 56
  {
    IndoEuropean15Keys();
    IndoEuropean16Keys();
    forall i | 0 <= i < |Entries56To63|
      ensures IndexOfKey(CodeKey(Entries56To63[i].code)) == i + 56
    {
      if i < 4 {
        assert Entries56To63[i] == IndoEuropean15[i];
      } else {
        assert Entries56To63[i] == IndoEuropean16[i - 4];
      }
    }
  }

  lemma Entries48To63Keys()
    ensures |Entries48To63| == 16
    ensures forall i :: 0 <= i < |Entries48To63| ==> IndexOfKey(CodeKey(Entries48To63[i].code)) == i + 48
  {
    Entries48To55Keys();
    Entries56To63Keys();
    forall i | 0 <= i < |Entries48To63|
      ensures IndexOfKey(CodeKey(Entries48To63[i].code)) == i + 48
    {
      if i < 8 {
        assert Entries48To63[i] == Entries48To55[i];
      } else {
        assert Entries48To63[i] == Entries56To63[i - 8];
      }
    }
  }

  lemma Entries32To63Keys()
    ensures |Entries32To63| == 32
    ensures forall i :: 0 <= i < |Entries32To63| ==> IndexOfKey(CodeKey(Entries32To63[i].code)) == i + 32
  {
    Entries32To47Keys();
    Entries48To63Keys();
    forall i | 0 <= i < |Entries32To63|
      ensures IndexOfKey(CodeKey(Entries32To63[i].code)) == i + 32
    {
      if i < 16 {
        assert Entries32To63[i] == Entries32To47[i];
      } else {
        assert Entries32To63[i] == Entries48To63[i - 16];
      }
    }
  }

  lemma Entries0To63Keys()
    ensures |Entries0To63| == 64
    ensures forall i :: 0 <= i < |Entries0To63| ==> IndexOfKey(CodeKey(Entries0To63[i].code)) == i + 0
  {
    Entries0To31Keys();
    Entries32To63Keys();
    forall i | 0 <= i < |Entries0To63|
      ensures IndexOfKey(CodeKey(Entries0To63[i].code)) == i + 0
    {
      if i < 32 {
        assert Entries0To63[i] == Entries0To31[i];
      } else {
        assert Entries0To63[i] == Entries32To63[i - 32];
      }
    }
  }

  lemma Entries64To70Keys()
    ensures |Entries64To70| == 7
    ensures forall i :: 0 <= i < |Entries64To70| ==> IndexOfKey(CodeKey(Entries64To70[i].code)) == i + 64
  {
    IndoEuropean17Keys();
    SinoTibetanKeys();
    forall i | 0 <= i < |Entries64To70|
      ensures IndexOfKey(CodeKey(Entries64To70[i].code)) == i + 64
    {
      if i < 3 {
        assert Entries64To70[i] == IndoEuropean17[i];
      } else {
        assert Entries64To70[i] == SinoTibetan[i - 3];
      }
    }
  }

  lemma Entries71To78Keys()
    ensures |Entries71To78| == 8
    ensures forall i :: 0 <= i < |Entries71To78| ==> IndexOfKey(CodeKey(Entries71To78[i].code)) == i + 71
  {
    AfroAsiatic1Keys();
    AfroAsiatic2Keys();
    forall i | 0 <= i < |Entries71To78|
      ensures IndexOfKey(CodeKey(Entries71To78[i].code)) == i + 71
    {
      if i < 4 {
        assert Entries71To78[i] == AfroAsiatic1[i];
      } else {
        assert Entries71To78[i] == AfroAsiatic2[i - 4];
      }
    }
  }

  lemma Entries64To78Keys()
    ensures |Entries64To78| == 15
    ensures forall i :: 0 <= i < |Entries64To78| ==> IndexOfKey(CodeKey(Entries64To78[i].code)) == i + 64
  {
    Entries64To70Keys();
    Entries71To78Keys();
    forall i | 0 <= i < |Entries64To78|
      ensures IndexOfKey(CodeKey(Entries64To78[i].code)) == i + 64
    {
      if i < 7 {
        assert Entries64To78[i] == Entries64To70[i];
      } else {
        assert Entries64To78[i] == Entries71To78[i - 7];
      }
    }
  }

  lemma Entries79To84Keys()
    ensures |Entries79To84| == 6
    ensures forall i :: 0 <= i < |Entries79To84| ==> IndexOfKey(CodeKey(Entries79To84[i].code)) == i + 79
  {
    AfroAsiatic3Keys();
    Austronesian1Keys();
    forall i | 0 <= i < |Entries79To84|
      ensures IndexOfKey(CodeKey(Entries79To84[i].code)) == i + 79
    {
      if i < 2 {
        assert Entries79To84[i] == AfroAsiatic3[i];
      } else {
        assert Entries79To84[i] == Austronesian1[i - 2];
      }
    }
  }

  lemma Entries85To92Keys()
    ensures |Entries85To92| == 8
    ensures forall i :: 0 <= i < |Entries85To92| ==> IndexOfKey(CodeKey(Entries85To92[i].code)) == i + 85
  {
    Austronesian2Keys();
    Austronesian3Keys();
    forall i | 0 <= i < |Entries85To92|
      ensures IndexOfKey(CodeKey(Entries85To92[i].code)) == i + 85
    {
      if i < 4 {
        assert Entries85To92[i] == Austronesian2[i];
      } else {
        assert Entries85To92[i] == Austronesian3[i - 4];
      }
    }
  }

  lemma Entries79To92Keys()
    ensures |Entries79To92| == 14
    ensures forall i :: 0 <= i < |Entries79To92| ==> IndexOfKey(CodeKey(Entries79To92[i].code)) == i + 79
  {
    Entries79To84Keys();
    Entries85To92Keys();
    forall i | 0 <= i < |Entries79To92|
      ensures IndexOfKey(CodeKey(Entries79To92[i].code)) == i + 79
    {
      if i < 6 {
        assert Entries79To92[i] == Entries79To84[i];
      } else {
        assert Entries79To92[i] == Entries85To92[i - 6];
      }
    }
  }

  lemma Entries64To92Keys()
    ensures |Entries64To92| == 29
    ensures forall i :: 0 <= i < |Entries64To92| ==> IndexOfKey(CodeKey(Entries64To92[i].code)) == i + 64
  {
    Entries64To78Keys();
    Entries79To92Keys();
    forall i | 0 <= i < |Entries64To92|
      ensures IndexOfKey(CodeKey(Entries64To92[i].code)) == i + 64
    {
      if i < 15 {
        assert Entries64To92[i] == Entries64To78[i];
      } else {
        assert Entries64To92[i] == Entries79To92[i - 15];
      }
    }
  }

  lemma Entries93To100Keys()
    ensures |Entries93To100| == 8
    ensures forall i :: 0 <= i < |Entries93To100| ==> IndexOfKey(CodeKey(Entries93To100[i].code)) == i + 93
  {
    DravidianKeys();
    Turkic1Keys();
    forall i | 0 <= i < |Entries93To100|
      ensures IndexOfKey(CodeKey(Entries93To100[i].code)) == i + 93
    {
      if i < 4 {
        assert Entries93To100[i] == Dravidian[i];
      } else {
        assert Entries93To100[i] == Turkic1[i - 4];
      }
    }
  }

  lemma Entries101To104Keys()
    ensures |Entries101To104| == 4
    ensures forall i :: 0 <= i < |Entries101To104| ==> IndexOfKey(CodeKey(Entries101To104[i].code)) == i + 101
  {
    Turkic2Keys();
    TaiKadaiKeys();
    forall i | 0 <= i < |Entries101To104|
      ensures IndexOfKey(CodeKey(Entries101To104[i].code)) == i + 101
    {
      if i < 2 {
        assert Entries101To104[i] == Turkic2[i];
      } else {
        assert Entries101To104[i] == TaiKadai[i - 2];
      }
    }
  }

  lemma Entries93To104Keys()
    ensures |Entries93To104| == 12
    ensures forall i :: 0 <= i < |Entries93To104| ==> IndexOfKey(CodeKey(Entries93To104[i].code)) == i + 93
  {
    Entries93To100Keys();
    Entries101To104Keys();
    forall i | 0 <= i < |Entries93To104|
      ensures IndexOfKey(CodeKey(Entries93To104[i].code)) == i + 93
    {
      if i < 8 {
        assert Entries93To104[i] == Entries93To100[i];
      } else {
        assert Entries93To104[i] == Entries101To104[i - 8];
      }
    }
  }

  lemma Entries105To109Keys()
    ensures |Entries105To109| == 5
    ensures forall i :: 0 <= i < |Entries105To109| ==> IndexOfKey(CodeKey(Entries105To109[i].code)) == i + 105
  {
    UralicKeys();
    AustroasiaticKeys();
    forall i | 0 <= i < |Entries105To109|
      ensures IndexOfKey(CodeKey(Entries105To109[i].code)) == i + 105
    {
      if i < 3 {
        assert Entries105To109[i] == Uralic[i];
      } else {
        assert Entries105To109[i] == Austroasiatic[i - 3];
      }
    }
  }

  lemma Entries114To118Keys()
    ensures |Entries114To118| == 5
    ensures forall i :: 0 <= i < |Entries114To118| ==> IndexOfKey(CodeKey(Entries114To118[i].code)) == i + 114
  {
    Other2Keys();
    Other3Keys();
    forall i | 0 <= i < |Entries114To118|
      ensures IndexOfKey(CodeKey(Entries114To118[i].code)) == i + 114
    {
      if i < 4 {
        assert Entries114To118[i] == Other2[i];
      } else {
        assert Entries114To118[i] == Other3[i - 4];
      }
    }
  }

  lemma Entries110To118Keys()
    ensures |Entries110To118| == 9
    ensures forall i :: 0 <= i < |Entries110To118| ==> IndexOfKey(CodeKey(Entries110To118[i].code)) == i + 110
  {
    Other1Keys();
    Entries114To118Keys();
    forall i | 0 <= i < |Entries110To118|
      ensures IndexOfKey(CodeKey(Entries110To118[i].code)) == i + 110
    {
      if i < 4 {
        assert Entries110To118[i] == Other1[i];
      } else {
        assert Entries110To118[i] == Entries114To118[i - 4];
      }
    }
  }

  lemma Entries105To118Keys()
    ensures |Entries105To118| == 14
    ensures forall i :: 0 <= i < |Entries105To118| ==> IndexOfKey(CodeKey(Entries105To118[i].code)) == i + 105
  {
    Entries105To109Keys();
    Entries110To118Keys();
    forall i | 0 <= i < |Entries105To118|
      ensures IndexOfKey(CodeKey(Entries105To118[i].code)) == i + 105
    {
      if i < 5 {
        assert Entries105To118[i] == Entries105To109[i];
      } else {
        assert Entries105To118[i] == Entries110To118[i - 5];
      }
    }
  }

  lemma Entries93To118Keys()
    ensures |Entries93To118| == 26
    ensures forall i :: 0 <= i < |Entries93To118| ==> IndexOfKey(CodeKey(Entries93To118[i].code)) == i + 93
  {
    Entries93To104Keys();
    Entries105To118Keys();
    forall i | 0 <= i < |Entries93To118|
      ensures IndexOfKey(CodeKey(Entries93To118[i].code)) == i + 93
    {
      if i < 12 {
        assert Entries93To118[i] == Entries93To104[i];
      } else {
        assert Entries93To118[i] == Entries105To118[i - 12];
      }
    }
  }

  lemma Entries64To118Keys()
    ensures |Entries64To118| == 55
    ensures forall i :: 0 <= i < |Entries64To118| ==> IndexOfKey(CodeKey(Entries64To118[i].code)) == i + 64
  {
    Entries64To92Keys();
    Entries93To118Keys();
    forall i | 0 <= i < |Entries64To118|
      ensures IndexOfKey(CodeKey(Entries64To118[i].code)) == i + 64
    {
      if i < 29 {
        assert Entries64To118[i] == Entries64To92[i];
      } else {
        assert Entries64To118[i] == Entries93To118[i - 29];
      }
    }
  }

  lemma CatalogueKeys()
    ensures |Catalogue| == 119
    ensures forall i :: 0 <= i < |Catalogue| ==> IndexOfKey(CodeKey(Catalogue[i].code)) == i + 0
  {
    Entries0To63Keys();
    Entries64To118Keys();
    forall i | 0 <= i < |Catalogue|
      ensures IndexOfKey(CodeKey(Catalogue[i].code)) == i + 0
    {
      if i < 64 {
        assert Catalogue[i] == Entries0To63[i];
      } else {
        assert Catalogue[i] == Entries64To118[i - 64];
      }
    }
  }

  /** The search tree inverts the key on every catalogue record. */
  lemma CatalogueKeyInverse(i: nat)
    requires i < |Catalogue|
    ensures IndexOfKey(CodeKey(Catalogue[i].code)) == i
  {
    CatalogueKeys();
  }

  /** No two catalogue records share a code. */
  lemma CatalogueCodesDistinct()
    ensures forall i, j :: 0 <= i < j < |Catalogue| ==> Catalogue[i].code != Catalogue[j].code
  {
    forall i, j | 0 <= i < j < |Catalogue|
      ensures Catalogue[i].code != Catalogue[j].code
    {
      CatalogueKeyInverse(i);
      CatalogueKeyInverse(j);
    }
  }

  /** Some record of `langs` carries `code`. */
  predicate HasCode(langs: seq<Language>, code: string) {
    exists i :: 0 <= i < |langs| && langs[i].code == code
  }

  predicate IsKnownCode(code: string) {
    HasCode(Catalogue, code)
  }

  predicate IsUnknownCode(code: string) {
    !IsKnownCode(code)
  }

  /** The position of the first record of `langs` with the given code. */
  predicate IsFirstWithCode(langs: seq<Language>, code: string, i: int) {
    0 <= i < |langs| && langs[i].code == code && forall j :: 0 <= j < i ==> langs[j].code != code
  }

  /** A scan of `langs` that returns its first record with the given code. */
  method FindByCode(langs: seq<Language>, code: string) returns (r: Option<Language>)
    ensures r.None? <==> !HasCode(langs, code)
    ensures r.Some? ==> exists i :: IsFirstWithCode(langs, code, i) && langs[i] == r.value
  {
    for i := 0 to |langs|
      invariant forall j :: 0 <= j < i ==> langs[j].code != code
    {
      if langs[i].code == code {
        assert IsFirstWithCode(langs, code, i);
        return Some(langs[i]);
      }
    }
    return None;
  }

  /** `get_language_by_code`. */
  method GetLanguageByCode(code: string) returns (r: Option<Language>)
    ensures r.Some? <==> IsKnownCode(code)
    ensures r.Some? ==> exists i :: IsFirstWithCode(Catalogue, code, i) && Catalogue[i] == r.value
  {
    r := FindByCode(Catalogue, code);
  }

  /** Because codes are distinct, the record a successful lookup finds is the only one with that code. */
  lemma LookupIsUnique(code: string, i: nat)
    requires i < |Catalogue| && Catalogue[i].code == code
    ensures forall j :: 0 <= j < |Catalogue| && Catalogue[j].code == code ==> j == i
  {
    CatalogueCodesDistinct();
  }

  /** `validate_language_codes`: known and unknown codes, each in input order, duplicates kept. */
  method ValidateLanguageCodes(codes: seq<string>) returns (valid: seq<string>, invalid: seq<string>)
    ensures valid == Filter(codes, IsKnownCode)
    ensures invalid == Filter(codes, IsUnknownCode)
    ensures Interleaving(codes, valid, invalid)
  {
    valid, invalid := [], [];
    for i := 0 to |codes|
      invariant valid == Filter(codes[..i], IsKnownCode)
      invariant invalid == Filter(codes[..i], IsUnknownCode)
    {
      var lang := GetLanguageByCode(codes[i]);
      PrefixSnoc(codes, i);
      FilterSnoc(codes[..i], codes[i], IsKnownCode);
      FilterSnoc(codes[..i], codes[i], IsUnknownCode);
      if lang.Some? {
        valid := valid + [codes[i]];
      } else {
        invalid := invalid + [codes[i]];
      }
    }
    assert codes[..|codes|] == codes;
    FilterPartition(codes, IsKnownCode, IsUnknownCode);
  }

  /** Every input position lands in exactly one of the two lists. */
  lemma ValidationPartitions(codes: seq<string>)
    ensures |Filter(codes, IsKnownCode)| + |Filter(codes, IsUnknownCode)| == |codes|
    ensures multiset(Filter(codes, IsKnownCode)) + multiset(Filter(codes, IsUnknownCode)) == multiset(codes)
  {
    FilterPartition(codes, IsKnownCode, IsUnknownCode);
    InterleavingCounts(codes, Filter(codes, IsKnownCode), Filter(codes, IsUnknownCode));
  }

  /** With no unknown code, the valid list is the input itself. */
  lemma {:induction false} NoInvalidMeansAllValid(codes: seq<string>)
    requires Filter(codes, IsUnknownCode) == []
    ensures Filter(codes, IsKnownCode) == codes
    decreases |codes|
  {
    if codes != [] {
      var init, last := codes[..|codes| - 1], codes[|codes| - 1];
      assert codes == init + [last];
      FilterSnoc(init, last, IsUnknownCode);
      FilterSnoc(init, last, IsKnownCode);
      NoInvalidMeansAllValid(init);
    }
  }

  /** The records of `langs` of family `f`, in order. */
  function OfFamily(langs: seq<Language>, f: string): seq<Language>
    decreases |langs|
  {
    if langs == [] then []
    else OfFamily(langs[..|langs| - 1], f) + (if langs[|langs| - 1].family == f then [langs[|langs| - 1]] else [])
  }

  /** The list for `f` holds exactly the records of family `f`, each as often as it occurs, in order. */
  lemma {:induction false} OfFamilyIsFilter(langs: seq<Language>, f: string)
    ensures OfFamily(langs, f) == Filter(langs, (l: Language) => l.family == f)
    decreases |langs|
  {
    if langs != [] {
      var init, last := langs[..|langs| - 1], langs[|langs| - 1];
      assert langs == init + [last];
      OfFamilyIsFilter(init, f);
      FilterSnoc(init, last, (l: Language) => l.family == f);
    }
  }

  /** The families of `langs`, each once, in order of first occurrence. */
  function FamilyOrder(langs: seq<Language>): (r: seq<string>)
    ensures Distinct(r)
    decreases |langs|
  {
    if langs == [] then []
    else
      var init, last := langs[..|langs| - 1], langs[|langs| - 1];
      assert langs == init + [last];
      var prev := FamilyOrder(init);
      if last.family in prev then prev else prev + [last.family]
  }

  /** One more record extends its own family's list by itself and leaves the others alone. */
  lemma OfFamilySnoc(langs: seq<Language>, x: Language)
    ensures forall f :: OfFamily(langs + [x], f) == OfFamily(langs, f) + (if x.family == f then [x] else [])
  {
    assert (langs + [x])[..|langs + [x]| - 1] == langs;
  }

  /** One more record adds its family to the order exactly when the family is new. */
  lemma FamilyOrderSnoc(langs: seq<Language>, x: Language)
    ensures FamilyOrder(langs + [x]) == if x.family in FamilyOrder(langs) then FamilyOrder(langs) else FamilyOrder(langs) + [x.family]
  {
    assert (langs + [x])[..|langs + [x]| - 1] == langs;
  }

  /** The order names exactly the families that occur. */
  lemma {:induction false} FamilyOrderMembers(langs: seq<Language>)
    ensures forall f :: f in FamilyOrder(langs) <==> exists i :: 0 <= i < |langs| && langs[i].family == f
    decreases |langs|
  {
    if langs != [] {
      var init, last := langs[..|langs| - 1], langs[|langs| - 1];
      assert langs == init + [last];
      FamilyOrderSnoc(init, last);
      FamilyOrderMembers(init);
      forall f | f in FamilyOrder(langs)
        ensures exists i :: 0 <= i < |langs| && langs[i].family == f
      {
        if f != last.family {
          var i :| 0 <= i < |init| && init[i].family == f;
          assert langs[i] == init[i];
        }
      }
      forall f | exists i :: 0 <= i < |langs| && langs[i].family == f
        ensures f in FamilyOrder(langs)
      {
        var i :| 0 <= i < |langs| && langs[i].family == f;
        if i < |init| {
          assert init[i] == langs[i];
        }
      }
    }
  }

  /** A family missing from the order has no records. */
  lemma {:induction false} OfFamilyOutsideOrder(langs: seq<Language>, f: string)
    requires f !in FamilyOrder(langs)
    ensures OfFamily(langs, f) == []
    decreases |langs|
  {
    if langs != [] {
      var init, last := langs[..|langs| - 1], langs[|langs| - 1];
      assert langs == init + [last];
      FamilyOrderSnoc(init, last);
      OfFamilySnoc(init, last);
      OfFamilyOutsideOrder(init, f);
    }
  }

  predicate Distinct(s: seq<string>) {
    forall a, b :: 0 <= a < b < |s| ==> s[a] != s[b]
  }

  /** The sum of the list lengths of the groups named in `order`. */
  function GroupedTotal(order: seq<string>, groups: map<string, seq<Language>>): nat
    requires forall f :: f in order ==> f in groups
    decreases |order|
  {
    if order == [] then 0
    else GroupedTotal(order[..|order| - 1], groups) + |groups[order[|order| - 1]]|
  }

  /** The total depends only on the groups named in `order`. */
  lemma {:induction false} GroupedTotalFrame(order: seq<string>, m1: map<string, seq<Language>>, m2: map<string, seq<Language>>)
    requires forall f :: f in order ==> f in m1 && f in m2 && m1[f] == m2[f]
    ensures GroupedTotal(order, m1) == GroupedTotal(order, m2)
    decreases |order|
  {
    if order != [] {
      GroupedTotalFrame(order[..|order| - 1], m1, m2);
    }
  }

  /** Appending one record to one named group raises the total by one. */
  lemma {:induction false} GroupedTotalAppend(order: seq<string>, m: map<string, seq<Language>>, f: string, x: Language)
    requires Distinct(order) && f in order
    requires forall g :: g in order ==> g in m
    ensures GroupedTotal(order, m[f := m[f] + [x]]) == GroupedTotal(order, m) + 1
    decreases |order|
  {
    var init, last := order[..|order| - 1], order[|order| - 1];
    var m' := m[f := m[f] + [x]];
    if last == f {
      assert f !in init;
      GroupedTotalFrame(init, m, m');
    } else {
      assert f in init;
      assert Distinct(init) by {
        forall a, b | 0 <= a < b < |init| ensures init[a] != init[b] {
          assert init[a] == order[a] && init[b] == order[b];
        }
      }
      GroupedTotalAppend(init, m, f, x);
    }
  }

  /** The dictionary's keys are the families named in `order`. */
  ghost predicate KeysMatch(groups: map<string, seq<Language>>, order: seq<string>) {
    forall f :: f in groups <==> f in order
  }

  /** Each family's list holds that family's records of `prefix`. */
  ghost predicate ListsMatch(prefix: seq<Language>, groups: map<string, seq<Language>>) {
    forall f :: f in groups ==> groups[f] == OfFamily(prefix, f)
  }

  /** The grouping of `prefix` is `groups`, with keys in insertion order `order`. */
  ghost predicate GroupedSoFar(prefix: seq<Language>, groups: map<string, seq<Language>>, order: seq<string>) {
    && order == FamilyOrder(prefix)
    && KeysMatch(groups, order)
    && ListsMatch(prefix, groups)
    && GroupedTotal(order, groups) == |prefix|
  }

  /** Appending a record to its family's existing list keeps the lists right. */
  lemma ListsAppend(prefix: seq<Language>, groups: map<string, seq<Language>>, x: Language)
    requires ListsMatch(prefix, groups) && x.family in groups
    ensures ListsMatch(prefix + [x], groups[x.family := groups[x.family] + [x]])
  {
    var g2 := groups[x.family := groups[x.family] + [x]];
    OfFamilySnoc(prefix, x);
    forall h | h in g2
      ensures g2[h] == OfFamily(prefix + [x], h)
    {
      if h != x.family {
        assert g2[h] == groups[h];
      }
    }
  }

  /** Opening an empty list for a family with no records so far keeps the lists right. */
  lemma ListsOpen(prefix: seq<Language>, groups: map<string, seq<Language>>, f: string)
    requires ListsMatch(prefix, groups) && OfFamily(prefix, f) == []
    ensures ListsMatch(prefix, groups[f := []])
  {
  }

  /** A record of a family not yet seen opens a new group holding just that record. */
  lemma GroupNewFamily(prefix: seq<Language>, groups: map<string, seq<Language>>, order: seq<string>, x: Language)
    requires GroupedSoFar(prefix, groups, order) && x.family !in groups
    ensures var g1 := groups[x.family := []];
            GroupedSoFar(prefix + [x], g1[x.family := g1[x.family] + [x]], order + [x.family])
  {
    var f, g1, o1 := x.family, groups[x.family := []], order + [x.family];
    FamilyOrderSnoc(prefix, x);
    assert o1 == FamilyOrder(prefix + [x]);
    assert KeysMatch(g1[f := g1[f] + [x]], o1);
    OfFamilyOutsideOrder(prefix, f);
    ListsOpen(prefix, groups, f);
    ListsAppend(prefix, g1, x);
    GroupedTotalNewKey(order, groups, x);
  }

  /** Opening a group for a new family with one record raises the total by one. */
  lemma GroupedTotalNewKey(order: seq<string>, groups: map<string, seq<Language>>, x: Language)
    requires Distinct(order + [x.family])
    requires forall h :: h in order ==> h in groups
    ensures var g1 := groups[x.family := []];
            GroupedTotal(order + [x.family], g1[x.family := g1[x.family] + [x]]) == GroupedTotal(order, groups) + 1
  {
    var f, g1, o1 := x.family, groups[x.family := []], order + [x.family];
    assert f !in order;
    GroupedTotalFrame(order, groups, g1);
    assert o1[..|o1| - 1] == order;
    GroupedTotalAppend(o1, g1, f, x);
  }

  /** A record of a family already seen is appended to that family's group. */
  lemma GroupKnownFamily(prefix: seq<Language>, groups: map<string, seq<Language>>, order: seq<string>, x: Language)
    requires GroupedSoFar(prefix, groups, order) && x.family in groups
    ensures GroupedSoFar(prefix + [x], groups[x.family := groups[x.family] + [x]], order)
  {
    FamilyOrderSnoc(prefix, x);
    assert order == FamilyOrder(prefix + [x]);
    assert KeysMatch(groups[x.family := groups[x.family] + [x]], order);
    ListsAppend(prefix, groups, x);
    GroupedTotalAppend(order, groups, x.family, x);
  }

  /**
   * The `LANGUAGES_BY_FAMILY` construction: a dictionary filled in one pass, a new family
   * getting an empty list before its first record is appended. `order` is the dictionary's
   * insertion order.
   */
  method GroupByFamily(langs: seq<Language>) returns (groups: map<string, seq<Language>>, order: seq<string>)
    ensures order == FamilyOrder(langs)
    ensures forall f :: f in groups <==> f in order
    ensures forall f :: f in groups <==> exists i :: 0 <= i < |langs| && langs[i].family == f
    ensures forall f :: f in groups ==> groups[f] == OfFamily(langs, f)
    ensures GroupedTotal(order, groups) == |langs|
  {
    groups, order := map[], [];
    for i := 0 to |langs|
      invariant GroupedSoFar(langs[..i], groups, order)
    {
      var lang := langs[i];
      PrefixSnoc(langs, i);
      if lang.family !in groups {
        GroupNewFamily(langs[..i], groups, order, lang);
        groups := groups[lang.family := []];
        order := order + [lang.family];
      } else {
        GroupKnownFamily(langs[..i], groups, order, lang);
      }
      groups := groups[lang.family := groups[lang.family] + [lang]];
    }
    assert langs[..|langs|] == langs;
    FamilyOrderMembers(langs);
  }

  /** A generation request as received, with pydantic's defaults for the omitted fields. */
  datatype GenerationRequest = GenerationRequest(
    prompt: string,
    contentType: ContentType,
    targetLanguages: seq<string>,
    sourceLanguage: Option<string>,
    tone: Option<Tone>,
    length: Option<Length>)

  /** A request that leaves the three optional fields out. */
  function NewRequest(prompt: string, contentType: ContentType, targets: seq<string>): (r: GenerationRequest)
    ensures r.sourceLanguage == Some("en") && r.tone == Some(Professional) && r.length == Some(Medium)
    ensures r.prompt == prompt && r.contentType == contentType && r.targetLanguages == targets
  {
    GenerationRequest(prompt, contentType, targets, Some("en"), Some(Professional), Some(Medium))
  }

  /** Word, character and reading-time figures for one text. */
  datatype ContentMetadata = ContentMetadata(wordCount: nat, characterCount: nat, estimatedReadingTime: nat)

  /** One produced text, tagged with its language code. */
  datatype GeneratedContent = GeneratedContent(language: string, content: string, metadata: Option<ContentMetadata>)

  /** The response to a generation request; the wall-clock processing time is not modelled. */
  datatype GenerationResponse = GenerationResponse(
    originalContent: GeneratedContent,
    translations: seq<GeneratedContent>,
    totalTokensUsed: Option<nat>)

  /** The error categories the backend raises, with their wire names. */
  datatype ErrorKind = ValidationError | RateLimit | ApiError | Unknown {
    function Name(): string {
      match this
      case ValidationError => "VALIDATION_ERROR"
      case RateLimit => "RATE_LIMIT"
      case ApiError => "API_ERROR"
      case Unknown => "UNKNOWN"
    }
  }

  /** A value inside an error's details dictionary. */
  datatype Detail = Str(s: string) | Int(n: int) | StrList(items: seq<string>)

  /** `AIAgentError`: a category, a message and a details dictionary. */
  datatype AgentError = AgentError(kind: ErrorKind, message: string, details: map<string, Detail>)

  /** The constructor of `AIAgentError`: omitted or empty details become the empty dictionary. */
  function NewAgentError(kind: ErrorKind, message: string, details: Option<map<string, Detail>>): (r: AgentError)
    ensures r.kind == kind && r.message == message
    ensures details.None? ==> r.details == map[]
    ensures details.Some? ==> r.details == details.value
  {
    AgentError(kind, message, details.GetOr(map[]))
  }
}
