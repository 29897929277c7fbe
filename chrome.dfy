/** The data-only parts of src/chrome.py: the locale table behind
    `get_locale_configuration`, and the choice of the fingerprint override
    script from the User-Agent string. */
module Chrome {
  import opened Wrappers
  import opened Text
  import opened Locale
  import opened ChromeOsInfo
  import UserAgentParser

  /** The seven language codes and their configurations. */
  const LanguageMap: map<string, LocaleConfig> := map[
    "en" := LocaleConfig("en-US,en;q=0.9", Timezone("America/Los_Angeles", 480, "Pacific Standard Time")),
    "ru" := LocaleConfig("ru-RU,ru;q=0.9", Timezone("Europe/Moscow", -180, "Moscow Standard Time")),
    "ua" := LocaleConfig("uk-UA,uk;q=0.9", Timezone("Europe/Kiev", -120, "Eastern European Standard Time")),
    "fr" := LocaleConfig("fr-FR,fr;q=0.9", Timezone("Europe/Paris", -60, "Central European Standard Time")),
    "es" := LocaleConfig("es-ES,es;q=0.9", Timezone("Europe/Madrid", -60, "Central European Standard Time")),
    "cn" := LocaleConfig("zh-CN,zh;q=0.9", Timezone("Asia/Shanghai", -480, "China Standard Time")),
    "de" := LocaleConfig("de-DE,de;q=0.9", Timezone("Europe/Berlin", -60, "Central European Standard Time"))
  ]

  /** What an unknown code gets. */
  const DefaultLocale: LocaleConfig :=
    LocaleConfig("en-US,en;q=0.9", Timezone("UTC", 0, "Coordinated Universal Time"))

  /** `get_locale_configuration`: look the lower-cased code up, falling back
      to the default. The default is returned exactly for the codes the table
      does not know, since no entry of the table equals it. */
  function GetLocaleConfiguration(languageSetting: string): (r: LocaleConfig)
    ensures r == DefaultLocale <==> Lower(languageSetting) !in LanguageMap
    ensures r.acceptLanguage
         in {"en-US,en;q=0.9", "ru-RU,ru;q=0.9", "uk-UA,uk;q=0.9", "fr-FR,fr;q=0.9",
             "es-ES,es;q=0.9", "zh-CN,zh;q=0.9", "de-DE,de;q=0.9"}
  {
    var code := Lower(languageSetting);
    if code in LanguageMap then
      assert code in {"en", "ru", "ua", "fr", "es", "cn", "de"};
      LanguageMap[code]
    else DefaultLocale
  }

  /** Upper and lower case select the same configuration: a code and its
      lower-case form give the same answer. */
  lemma LocaleIgnoresCase(languageSetting: string)
    ensures GetLocaleConfiguration(languageSetting) == GetLocaleConfiguration(Lower(languageSetting))
  {
    LowerIdempotent(languageSetting);
  }

  /** The UTC zone is given exactly to the codes the table does not know. */
  lemma UtcOnlyForUnknownCodes(languageSetting: string)
    ensures GetLocaleConfiguration(languageSetting).timezone.name == "UTC"
        <==> Lower(languageSetting) !in LanguageMap
  {
    var code := Lower(languageSetting);
    if code in LanguageMap {
      assert code in {"en", "ru", "ua", "fr", "es", "cn", "de"};
    }
  }

  /** An unknown code gets the English language header but not the English
      time zone. */
  lemma UnknownCodeIsEnglishInUtc(languageSetting: string)
    requires Lower(languageSetting) !in LanguageMap
    ensures GetLocaleConfiguration(languageSetting).acceptLanguage == GetLocaleConfiguration("en").acceptLanguage
    ensures GetLocaleConfiguration(languageSetting).timezone != GetLocaleConfiguration("en").timezone
  {
    assert Lower("en") == "en";
  }

  /** The expectations of the locale tests: the seven headers and the zones
      of 'en', 'ru', 'UA' and an unknown code. */
  lemma TestedLocales()
    ensures GetLocaleConfiguration("en").acceptLanguage == "en-US,en;q=0.9"
    ensures GetLocaleConfiguration("ru").acceptLanguage == "ru-RU,ru;q=0.9"
    ensures GetLocaleConfiguration("UA").acceptLanguage == "uk-UA,uk;q=0.9"
    ensures GetLocaleConfiguration("fr").acceptLanguage == "fr-FR,fr;q=0.9"
    ensures GetLocaleConfiguration("es").acceptLanguage == "es-ES,es;q=0.9"
    ensures GetLocaleConfiguration("cn").acceptLanguage == "zh-CN,zh;q=0.9"
    ensures GetLocaleConfiguration("de").acceptLanguage == "de-DE,de;q=0.9"
    ensures GetLocaleConfiguration("unknown").acceptLanguage == "en-US,en;q=0.9"
    ensures GetLocaleConfiguration("en").timezone == Timezone("America/Los_Angeles", 480, "Pacific Standard Time")
    ensures GetLocaleConfiguration("ru").timezone == Timezone("Europe/Moscow", -180, "Moscow Standard Time")
    ensures GetLocaleConfiguration("UA").timezone == Timezone("Europe/Kiev", -120, "Eastern European Standard Time")
    ensures GetLocaleConfiguration("unknown").timezone == Timezone("UTC", 0, "Coordinated Universal Time")
  {
    assert Lower("en") == "en";
    assert Lower("ru") == "ru";
    assert Lower("UA") == "ua";
    assert Lower("fr") == "fr";
    assert Lower("es") == "es";
    assert Lower("cn") == "cn";
    assert Lower("de") == "de";
    assert Lower("unknown") == "unknown";
  }

  /** The zones of the four codes the tests leave out: Paris, Madrid and
      Berlin one hour east of UTC, Shanghai eight. */
  lemma UntestedZones()
    ensures GetLocaleConfiguration("fr").timezone == Timezone("Europe/Paris", -60, "Central European Standard Time")
    ensures GetLocaleConfiguration("es").timezone == Timezone("Europe/Madrid", -60, "Central European Standard Time")
    ensures GetLocaleConfiguration("cn").timezone == Timezone("Asia/Shanghai", -480, "China Standard Time")
    ensures GetLocaleConfiguration("de").timezone == Timezone("Europe/Berlin", -60, "Central European Standard Time")
  {
    assert Lower("fr") == "fr";
    assert Lower("es") == "es";
    assert Lower("cn") == "cn";
    assert Lower("de") == "de";
  }

  // ---- the override script ----

  /** `OS_OVERRIDE_MAP` */
  const OsOverrideMap: map<string, string> := map[
    "Windows" := "Windows10_Chrome",
    "iOS" := "iOS_Safari",
    "MacOS" := "MacOS_Safari",
    "Android" := "Android_Pixel_Chrome",
    "Linux" := "Linux_Ubuntu_Firefox"
  ]

  /** `OS_OVERRIDE_MAP.get(os, 'Unknown')`: one of six keys, "Unknown"
      exactly for a name the map does not list. */
  function OverrideKey(os: string): (r: string)
    ensures r == "Unknown" <==> os !in {"Windows", "iOS", "MacOS", "Android", "Linux"}
    ensures r in {"Windows10_Chrome", "iOS_Safari", "MacOS_Safari", "Android_Pixel_Chrome", "Linux_Ubuntu_Firefox", "Unknown"}
  {
    if os in OsOverrideMap then OsOverrideMap[os] else "Unknown"
  }

  /** `OVERRIDE.get(OS_OVERRIDE_MAP.get(parse_os_from_user_agent(user_agent), 'Unknown'))`:
      every key the map yields is in OVERRIDE, so Chrome always gets an
      override script, the one stored under the key chosen for the system. */
  function ScriptToOverride(userAgent: string): (r: Option<Script>)
    ensures r.Some? && r.value.key == OverrideKey(UserAgentParser.ParseOs(userAgent))
  {
    var key := OverrideKey(UserAgentParser.ParseOs(userAgent));
    assert key in OverrideKeys;
    OverrideGet(key)
  }

  /** The iPad and Windows Server scripts of OVERRIDE are never chosen. */
  lemma UnreachableScripts(userAgent: string)
    ensures ScriptToOverride(userAgent) != Some(Script("iPadOS_Safari"))
    ensures ScriptToOverride(userAgent) != Some(Script("Windows_Server_IE11"))
  {
    var key := OverrideKey(UserAgentParser.ParseOs(userAgent));
    assert key != "iPadOS_Safari" && key != "Windows_Server_IE11";
  }

  /** A User-Agent carrying a Windows NT version gets the Windows 10 script. */
  lemma WindowsAgentScript(pre: string, major: string, minor: string, post: string)
    requires |major| >= 1 && AllDigits(major) && |minor| >= 1 && AllDigits(minor)
    ensures ScriptToOverride(pre + "Windows NT " + major + "." + minor + post) == Some(Script("Windows10_Chrome"))
  {
    var ua := pre + "Windows NT " + major + "." + minor + post;
    UserAgentParser.WindowsVersion(pre, major, minor, post);
    assert OverrideKey(UserAgentParser.ParseOs(ua)) == "Windows10_Chrome";
  }

  /** The iPad sample string gets the "Unknown" script, not the iPad one. */
  lemma IPadGetsUnknownScript()
    ensures ScriptToOverride(UserAgentParser.IPadAgent) == Some(Script("Unknown"))
  {
    UserAgentParser.IPadAgentIsUnknown();
  }
}
