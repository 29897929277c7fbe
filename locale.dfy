/** The shape of the dictionaries `get_locale_configuration` returns in
    src/chrome.py and src/firefox.py. */
module Locale {
  /** The 'timezone' entry: zone name, offset in minutes as the browser's
      `getTimezoneOffset` reports it, and display name. */
  datatype Timezone = Timezone(name: string, offset: int, display: string)

  /** The 'accept_language' header value and the 'timezone' entry. */
  datatype LocaleConfig = LocaleConfig(acceptLanguage: string, timezone: Timezone)
}
