/** The data-only parts of src/firefox.py: its own copy of the locale table
    behind `get_locale_configuration`, and the choice of the override script
    from the User-Agent string, which uses Firefox key names that OVERRIDE
    mostly lacks. */
module Firefox {
  import opened Wrappers
  import opened Text
  import opened Locale
  import opened ChromeOsInfo
  import UserAgentParser
  import Chrome

  /** The seven language codes and their configurations. */
  const LanguageMap: map<string, LocaleConfig> := map[
    "en" := LocaleConfig("en-US,en;q=0.9", Timezone("America/Los_Angeles", 480, "Pacific Standard Time")),
    "ru" := LocaleConfig("ru-RU,ru;q=0.9", Timezone("Europe/Moscow", -180, "Moscow Standard Time")),
    "ua" := LocaleConfig("uk-UA,uk;q=0.9", Timezone("Europe/Kiev", -120, "Eastern European Standard Time")),
    "fr" := LocaleConfig("fr-FR,fr;q=0.9", Timezone("Europe/Paris", -60, "Central European Standard Time")),
    "es" := LocaleConfig("es-ES,es;q=0.9", Timezone("Europe/Madrid", -60, "Central European Standard Time")),
    "cn" := LocaleConfig("zh-CN,zh;q=0.9", Timezone("Asia/Shanghai", -480, "China Standard Time")),
    "de" := LocaleConfig("de-DE,de;q=0.9", Timezone("Europe/Berlin", -60, "Central European Standard Time"))
  ]

  /** What an unknown code gets. */
  const DefaultLocale: LocaleConfig :=
    LocaleConfig("en-US,en;q=0.9", Timezone("UTC", 0, "Coordinated Universal Time"))

  /** `get_locale_configuration`: the default exactly for the codes the
      table does not know. */
  function GetLocaleConfiguration(languageSetting: string): (r: LocaleConfig)
    ensures r == DefaultLocale <==> Lower(languageSetting) !in LanguageMap
  {
    var code := Lower(languageSetting);
    if code in LanguageMap then
      assert code in {"en", "ru", "ua", "fr", "es", "cn", "de"};
      LanguageMap[code]
    else DefaultLocale
  }

  /** Firefox's copy answers exactly as Chrome's does, for every code. */
  lemma SameLocaleAsChrome(languageSetting: string)
    ensures GetLocaleConfiguration(languageSetting) == Chrome.GetLocaleConfiguration(languageSetting)
  {
    assert LanguageMap == Chrome.LanguageMap;
  }

  /** An unknown code gets the English header with the UTC zone. */
  lemma UnknownCodeDefault(languageSetting: string)
    requires Lower(languageSetting) !in LanguageMap
    ensures GetLocaleConfiguration(languageSetting).acceptLanguage == "en-US,en;q=0.9"
    ensures GetLocaleConfiguration(languageSetting).timezone == Timezone("UTC", 0, "Coordinated Universal Time")
  {
  }

  // ---- the override script ----

  /** `OS_OVERRIDE_MAP` */
  const OsOverrideMap: map<string, string> := map[
    "Windows" := "Windows10_Firefox",
    "iOS" := "iOS_Firefox",
    "MacOS" := "MacOS_Firefox",
    "Android" := "Android_Firefox",
    "Linux" := "Linux_Ubuntu_Firefox"
  ]

  /** `OS_OVERRIDE_MAP.get(os, 'Unknown')`: "Unknown" exactly for a name
      the map does not list. */
  function OverrideKey(os: string): (r: string)
    ensures r == "Unknown" <==> os !in {"Windows", "iOS", "MacOS", "Android", "Linux"}
  {
    if os in OsOverrideMap then OsOverrideMap[os] else "Unknown"
  }

  /** `OVERRIDE.get(OS_OVERRIDE_MAP.get(parse_os_from_user_agent(user_agent), 'Unknown'))`:
      only two of the keys this map yields are in OVERRIDE, so the script
      found, if any, is the Linux one or the "Unknown" one. */
  function ScriptToOverride(userAgent: string): (r: Option<Script>)
    ensures r.Some? ==> r.value.key in {"Linux_Ubuntu_Firefox", "Unknown"}
  {
    var os := UserAgentParser.ParseOs(userAgent);
    KeyInOverride(os);
    OverrideGet(OverrideKey(os))
  }

  /** Of the keys this map produces, only "Linux_Ubuntu_Firefox" and
      "Unknown" are in OVERRIDE. */
  lemma KeyInOverride(os: string)
    ensures OverrideKey(os) in OverrideKeys <==> os !in {"Windows", "iOS", "MacOS", "Android"}
  {
    if os == "Windows" {
      assert OverrideKey(os) == "Windows10_Firefox";
    } else if os == "iOS" {
      assert OverrideKey(os) == "iOS_Firefox";
    } else if os == "MacOS" {
      assert OverrideKey(os) == "MacOS_Firefox";
    } else if os == "Android" {
      assert OverrideKey(os) == "Android_Firefox";
    } else if os == "Linux" {
      assert OverrideKey(os) == OverrideKeys[2];
    } else {
      assert OverrideKey(os) == OverrideKeys[6];
    }
  }

  /** A script is found exactly for strings classified Linux or Unknown, and
      it is the one under the chosen key. */
  lemma ScriptOnlyForLinuxOrUnknown(userAgent: string)
    ensures ScriptToOverride(userAgent).Some? <==> UserAgentParser.ParseOs(userAgent) in {"Linux", "Unknown"}
    ensures ScriptToOverride(userAgent).Some?
        ==> ScriptToOverride(userAgent).value.key == OverrideKey(UserAgentParser.ParseOs(userAgent))
  {
    UserAgentParser.ParseOsNames(userAgent);
    KeyInOverride(UserAgentParser.ParseOs(userAgent));
  }

  /** The Android sample string gets no override script under Firefox, while
      Chrome gets the Pixel script for it. */
  lemma AndroidAgentScripts()
    ensures ScriptToOverride(UserAgentParser.AndroidAgent) == None
    ensures Chrome.ScriptToOverride(UserAgentParser.AndroidAgent) == Some(Script("Android_Pixel_Chrome"))
  {
    UserAgentParser.AndroidAgentIsAndroid();
    AndroidGetsNoScript(UserAgentParser.AndroidAgent);
  }

  /** A string classified Android gets no script under Firefox and the
      Pixel script under Chrome. */
  lemma AndroidGetsNoScript(userAgent: string)
    requires UserAgentParser.ParseOs(userAgent) == "Android"
    ensures ScriptToOverride(userAgent) == None
    ensures Chrome.ScriptToOverride(userAgent) == Some(Script("Android_Pixel_Chrome"))
  {
    KeyInOverride("Android");
  }
}
