/** The table of browser-fingerprint override scripts in
    src/chrome_os_info.py, reduced to its keys: the JavaScript stored under
    each key is not modelled, a script is known only by the key it was
    stored under. */
module ChromeOsInfo {
  import opened Wrappers

  /** The script stored under `key`. */
  datatype Script = Script(key: string)

  /** The keys of OVERRIDE, in the order the file lists them. */
  const OverrideKeys: seq<string> := [
    "MacOS_Safari", "Windows10_Chrome", "Linux_Ubuntu_Firefox", "Android_Pixel_Chrome",
    "iPadOS_Safari", "Windows_Server_IE11", "Unknown", "iOS_Safari"
  ]

  /** `OVERRIDE.get(key)`: the script under `key`, or None. */
  function OverrideGet(key: string): (r: Option<Script>)
    ensures r.Some? <==> key in OverrideKeys
    ensures r.Some? ==> r.value.key == key
  {
    if key in OverrideKeys then Some(Script(key)) else None
  }
}
