# SSH SOCKS proxy: a Dafny model of its core

This project models the engine of the SSH_SOCKS_Proxy repository. It also models
the small table lookups the browser launchers use.

- `socks_to_http_proxy.dfy` (module `SocksToHttpProxy`) is the HTTP-to-SOCKS5
  front end of `src/socks_to_http_proxy.py`. It covers the SOCKS5 greeting and the
  CONNECT frame of RFC 1928 (sections 3 to 6). It reads the target from the
  `Host:` header and computes the bytes `handle_client` writes to the client and
  to the relay on every path. It also covers the one-direction copy loop of
  `forward_data`, the port-fallback search of `bind_to_port`, and the server
  object's stop flag and accept loop. Sockets are oracles: what a peer answers,
  and whether a call raises, is a parameter, and what the proxy writes is a result.
- `ssh_client.dfy` (module `SshClient`) is the tunnel supervisor of
  `src/ssh_client.py`. It covers the configuration check, the connection-parameter
  dictionary and the status flag with its deduplicated callback. It also covers
  `connect`, `stop`, `is_connected` and the reconnect loop with its failure counter
  and `min(5n, 60)` back-off. The class `SSHClient` keeps the source's fields, and
  its methods are proved equal to step functions on a `ClientState` value. The
  lemmas about the whole run are stated over those functions. The SSH library, the
  HTTP probe and password decryption are given per loop pass as a `Round`. Each
  `asyncio.sleep` is recorded in a log of durations. A `stop()` issued by another
  task is modelled as landing during one chosen sleep.
- `user_agent_parser.dfy` (module `UserAgentParser`) is the ordered first-match OS
  classifier of `src/user_agent_parser.py`. Each of its five regular expressions
  is written out as a predicate on the string.
- `chrome.dfy` and `firefox.dfy` (modules `Chrome`, `Firefox`) model the locale
  table of `get_locale_configuration` and the choice of the fingerprint override
  script from the OS name. `os_info.dfy` (module `ChromeOsInfo`) keeps only the
  keys of the `OVERRIDE` table in `src/chrome_os_info.py`, and `locale.dfy` holds
  the shape of a locale entry.
- `text.dfy` (module `Text`) models the parts of Python's `str` the code relies on:
  `split`, `strip`, `lower`, `startswith`, `in`, `rfind` and `int()`.
  `wrappers.dfy` holds `Option` and `Result`.

The model follows the code as written; in particular:

- The tunnel target comes from the `Host:` header; the CONNECT request line is
  never parsed.
- The 443/80 default port depends on whether the text "CONNECT" occurs anywhere
  in the request.
- The greeting reply is read and never checked.
- A non-zero REP octet makes the dial close the socket and return None; the
  REP value itself is not passed on.
- The exception path of `create_socks_connection` leaves the relay socket open.
- Every fallback attempt of `bind_to_port` binds a freshly created socket that is
  never handed back. So the server listens only when the first port binds.
- `stop()` enumerates the running threads to end the handlers (left out below).

## Model

| member | source | states |
|---|---|---|
| `SocksToHttpProxy.ConnectRequest` | src/socks_to_http_proxy.py:76-84 | the frame is `05 01 00 03`, the host length, the host bytes and the big-endian port, 7 + len(host) bytes; it exists exactly when the host has at most 255 characters and the port is in 0..65535 |
| `SocksToHttpProxy.ConnectRequestDecodes` | src/socks_to_http_proxy.py:76-84 | the relay end reads back exactly the host and port put in the frame |
| `SocksToHttpProxy.DecodedRequestIsBuilt` | src/socks_to_http_proxy.py:76-84 | every well-formed domain-name CONNECT frame with an ASCII host is the one built for its host and port |
| `SocksToHttpProxy.CreateSocksConnection` | src/socks_to_http_proxy.py:65-99 | the dial sends nothing, the greeting alone, or the greeting and the CONNECT frame. It succeeds exactly when octet 1 of the CONNECT reply is 0. A non-zero octet closes the socket. A failed connect, a raising recv, a host too long, a port out of range or a reply shorter than 2 bytes abandon the socket unclosed |
| `SocksToHttpProxy.GreetingReplyIgnored` | src/socks_to_http_proxy.py:71-73 | any two greeting replies give the same dial |
| `SocksToHttpProxy.Decode` | src/socks_to_http_proxy.py:119 | decoding yields ASCII text no longer than the request |
| `SocksToHttpProxy.DecodeAscii` | src/socks_to_http_proxy.py:119 | ASCII text survives encoding and decoding unchanged |
| `SocksToHttpProxy.IsHostLine` | src/socks_to_http_proxy.py:123 | a line counts as a `Host:` header only when its first four characters lower to "host" and its fifth is a colon, which is then its first colon |
| `SocksToHttpProxy.FirstHostLine` | src/socks_to_http_proxy.py:122-123 | the index of the first line whose lower-case form starts with "host:", or none exactly when no line does |
| `SocksToHttpProxy.HostValue` | src/socks_to_http_proxy.py:130-131 | the value is the text after the first colon of the line with surrounding whitespace stripped, so it neither starts nor ends with whitespace |
| `SocksToHttpProxy.SplitHostPort` | src/socks_to_http_proxy.py:134-136 | at a colon with no colon after it, the value is the host, that colon and a tail whose `int()` is the port; the error occurs exactly when the tail does not parse |
| `SocksToHttpProxy.TargetOfValue` | src/socks_to_http_proxy.py:132-136 | a value without a colon is the host with the default port; a value with one is split at its last colon as `SplitHostPort` says; an ASCII value gives an ASCII host |
| `SocksToHttpProxy.TargetAtLastColon` | src/socks_to_http_proxy.py:134-136 | `h:t` with no colon in `t` names host `h`, whatever colons `h` holds, and port `int(t)`, or fails with a bad port when `t` does not parse |
| `SocksToHttpProxy.DefaultPort` | src/socks_to_http_proxy.py:132 | 443 exactly when "CONNECT" occurs in the text, 80 exactly when it does not |
| `SocksToHttpProxy.ExtractTarget` | src/socks_to_http_proxy.py:122-136 | the missing-host failure occurs exactly when no line is a `Host:` header; otherwise the target is that of the value of the first `Host:` line, with the default port of the whole text; ASCII text gives an ASCII host |
| `SocksToHttpProxy.HostHeaderTarget` | src/socks_to_http_proxy.py:122-136 | after any lines that are not `Host:` headers, a `Host: v` line decides the target from `v` alone and from whether "CONNECT" occurs in the text; later `Host:` lines play no part |
| `SocksToHttpProxy.HostSecond` | src/socks_to_http_proxy.py:122-136 | a request line followed by `Host: v` is read from `v` the same way |
| `SocksToHttpProxy.HostPortValue` | src/socks_to_http_proxy.py:134-136 | `host:port` splits into that host and that port, colons inside the host (an IPv6 address, say) included |
| `SocksToHttpProxy.ConnectTargetFromHostHeader` | src/socks_to_http_proxy.py:122-136 | a CONNECT request dials the host and port of its `Host:` header, whatever its request line names and whatever colons the host holds |
| `SocksToHttpProxy.DefaultPortRule` | src/socks_to_http_proxy.py:132 | without a port the default is 443 exactly when "CONNECT" occurs anywhere in the text, and 80 exactly when it does not |
| `SocksToHttpProxy.AfterDial` | src/socks_to_http_proxy.py:141-153 | a failed dial or write sends nothing to the client. In tunnel mode a relayed request writes exactly the 200 line to the client. In forward mode it replays the request bytes upstream. It also gives the fate of the relay socket on each path |
| `SocksToHttpProxy.HandleRequest` | src/socks_to_http_proxy.py:113-153 | a missing host or bad port closes without touching the relay; otherwise the dial and first write of `AfterDial` for the extracted target |
| `SocksToHttpProxy.HandleClient` | src/socks_to_http_proxy.py:107-162 | the stop flag, a raising read and an empty read each end the handler first with no bytes written anywhere; a non-empty request is handled as `HandleRequest` |
| `SocksToHttpProxy.SilentOnFailure` | src/socks_to_http_proxy.py:107-144 | every path that does not reach forwarding writes zero bytes to the client |
| `SocksToHttpProxy.TunnelBytes` | src/socks_to_http_proxy.py:147-149 | in tunnel mode the client gets exactly `HTTP/1.1 200 Connection Established\r\n\r\n`; the relay gets only the greeting and the CONNECT frame |
| `SocksToHttpProxy.ForwardBytes` | src/socks_to_http_proxy.py:150-153 | in forward mode the client gets nothing and the relay gets the greeting, the CONNECT frame and the request unchanged |
| `SocksToHttpProxy.AsciiRequestRelayed` | src/socks_to_http_proxy.py:140-153 | an ASCII request whose target the relay accepts is relayed with the first write chosen by "CONNECT" |
| `SocksToHttpProxy.SampleGetTarget` | tests/test_socks_to_http_proxy.py:112 | the test's GET request dials example.com on port 80 |
| `SocksToHttpProxy.SampleGetForwarded` | tests/test_socks_to_http_proxy.py:90-115 | against the test's mock relay, the relay receives the greeting, the CONNECT frame for example.com:80 and the request unmodified; the client receives nothing from the proxy itself |
| `SocksToHttpProxy.SampleConnectTunnelled` | src/socks_to_http_proxy.py:122-153 | `CONNECT example.com:443` with `Host: example.com:443` dials example.com:443; the client gets exactly the 200 line and nothing else |
| `SocksToHttpProxy.EndOf` | src/socks_to_http_proxy.py:171-177 | a pass that does not copy ends the loop: by the stop flag exactly when it is set, by end of stream exactly on an empty read, otherwise by a socket error |
| `SocksToHttpProxy.Forward` | src/socks_to_http_proxy.py:169-180 | the destination receives exactly the concatenation, in order, of the chunks of the passes that copied. Every such pass read a non-empty chunk with the flag clear and wrote it. The pass after them ends the loop for its reason, and both sockets are closed exactly when the loop ended |
| `SocksToHttpProxy.Chunks` | src/socks_to_http_proxy.py:172-175 | nothing is delivered exactly when no pass read a non-empty chunk |
| `SocksToHttpProxy.ChunksAppend` | src/socks_to_http_proxy.py:169-180 | the bytes delivered over two stretches of passes are those of the first followed by those of the second |
| `SocksToHttpProxy.ChunksPrefix` | src/socks_to_http_proxy.py:169-180 | what reached the destination earlier is a prefix of what reaches it later |
| `SocksToHttpProxy.DeliveredBeforeStop` | src/socks_to_http_proxy.py:172-175 | every copying pass delivers at least one byte, so k copying passes deliver at least k bytes |
| `SocksToHttpProxy.BindToPort` | src/socks_to_http_proxy.py:244-272 | the ports tried are original, original+1, ... in order, at most `max_attempts` of them, and every attempt before the last failed with errno 98. It returns the first port that binds, re-raises the first other errno, or raises RuntimeError after `max_attempts` failures with errno 98. The caller's socket is closed exactly when the first attempt hit errno 98 |
| `SocksToHttpProxy.AcceptLoop` | src/socks_to_http_proxy.py:193-206 | at most one client per accept event is handed to a handler; the loop ends early exactly when accepts are left |
| `SocksToHttpProxy.AcceptedInOrder` | src/socks_to_http_proxy.py:193-206 | the clients handed to handlers are those of the leading accepts that found the stop flag clear, in order |
| `SocksToHttpProxy.NoDispatchAfterStop` | src/socks_to_http_proxy.py:195-198 | a client accepted after the stop flag is set, or an accept that raises, ends the loop, and no later client is dispatched |
| `SocksToHttpProxy.StartRun` | src/socks_to_http_proxy.py:193-206 | nothing is accepted when the flag is already set or the socket cannot accept; otherwise the accept loop decides |
| `SocksToHttpProxy.HttpProxyServer.constructor` | src/socks_to_http_proxy.py:21-55 | the server listens exactly when the first port binds; any other outcome stops the server and exits |
| `SocksToHttpProxy.HttpProxyServer.Stop` | src/socks_to_http_proxy.py:208-221 | sets the stop flag, closes the server socket and changes nothing else, so a second call changes nothing |
| `SocksToHttpProxy.HttpProxyServer.Start` | src/socks_to_http_proxy.py:193-206 | dispatches exactly the clients `StartRun` selects and runs `stop()` exactly when the loop ended |
| `SshClient.PostInit` | src/ssh_client.py:47-54 | the auth-method error occurs exactly for a method other than 'password' and 'key'. The missing-password error occurs exactly for 'password' with an empty or absent password. The missing-key error occurs exactly for 'key' with an empty or absent key path |
| `SshClient.ValidConfigMeans` | src/ssh_client.py:47-54 | a configuration is accepted exactly when it names one of the two methods and carries that method's non-empty credential |
| `SshClient.BaseParameters` | src/ssh_client.py:118-130 | host, port, username and `known_hosts=None` are always present; each keepalive entry is present exactly when its setting is non-zero; no credential yet |
| `SshClient.AuthParameters` | src/ssh_client.py:132-142 | password mode adds the decrypted password and key mode the key path as the only client key; building fails exactly when decryption raised or the key path is empty |
| `SshClient.Scrubbed` | src/ssh_client.py:174-177 | the password entry, if any, becomes None and nothing else changes |
| `SshClient.ValidKeyConfigHasKey` | src/ssh_client.py:139-142 | an accepted key configuration never reaches "SSH key path not provided" |
| `SshClient.Initial` | src/ssh_client.py:81-88 | a new client is running, disconnected, with zero attempts, no connection and no forwarder |
| `SshClient.Notify` | src/ssh_client.py:96-102 | the flag ends equal to the argument; the callback log grows by that value exactly when the flag changes and a callback is set; nothing else changes; the log keeps no repeats |
| `SshClient.CleanupState` | src/ssh_client.py:182-200 | connection and forwarder dropped, status False, running flag, counter and sleeps unchanged |
| `SshClient.StopState` | src/ssh_client.py:295-304 | running False, connection and forwarder dropped, status False, counter and sleeps unchanged |
| `SshClient.StopIdempotent` | src/ssh_client.py:295-304 | a second `stop()` changes nothing and fires no callback |
| `SshClient.Liveness` | src/ssh_client.py:245-293 | the probe counts only with a connection that is open and a forwarder; then it is True exactly when a test URL is set and the response is HTTP 200 |
| `SshClient.ConnectFinally` | src/ssh_client.py:179-180 | cleanup runs exactly when the status is False |
| `SshClient.ConnectResultOf` | src/ssh_client.py:104-180 | `connect` returns exactly when the parameters were built and the forward was served until it closed. It raises something other than SSHConnectionError exactly on an unexpected error from `asyncssh.connect` or from the session |
| `SshClient.ConnectStep` | src/ssh_client.py:104-180 | a returning connect leaves the tunnel up with the counter at 0. The counter is reset exactly when the forward came up. Without the status flag, connection and forwarder are dropped. The password is scrubbed on every exit, and the callback log keeps no repeats |
| `SshClient.Backoff` | src/ssh_client.py:224 | the wait after failure n is 5n seconds up to n = 12 and 60 from then on |
| `SshClient.SleepState` | src/ssh_client.py:231 | one sleep is logged; a `stop()` scheduled for it runs |
| `SshClient.Ticks` | src/ssh_client.py:228-231 | at most k one-second sleeps are added, none once the running flag is clear |
| `SshClient.RoundStep` | src/ssh_client.py:208-243 | one pass keeps the callback log free of repeats and sleeps no more after a stop |
| `SshClient.Manage` | src/ssh_client.py:202-243 | the whole loop keeps the callback log free of repeats, sleeps no more after a stop, and does nothing once stopped |
| `SshClient.BackoffsFrom` | src/ssh_client.py:216-224 | with the counter at n the waits still to come are 5(n+1), 5(n+2), ... one per failure until the limit |
| `SshClient.DefaultBackoffs` | src/ssh_client.py:216-224 | from a fresh counter the waits are 5, 10, ..., 45 seconds |
| `SshClient.DefaultSchedule` | src/ssh_client.py:224-231 | from a fresh counter the waits add up to 225 one-second sleeps |
| `SshClient.ExpandLength` | src/ssh_client.py:228-231 | waits taken in one-second sleeps give as many sleeps as their total |
| `SshClient.WaitsStep` | src/ssh_client.py:216-231 | the sleeps after failure n + 1 come first, then the later ones |
| `SshClient.TicksUninterrupted` | src/ssh_client.py:228-231 | k ticks with no stop append k one-second sleeps and change nothing else |
| `SshClient.FailingRound` | src/ssh_client.py:210-231 | a pass that finds the tunnel not live (no connection, a closed transport, or a failed probe) and whose connect raises SSHConnectionError before the forward is up raises the counter by one. Below the limit it sleeps `min(5n, 60)` one-second sleeps. At the limit it stops without sleeping |
| `SshClient.FailingRun` | src/ssh_client.py:208-231 | starting from a tunnel that is not live, with every connect failing and no stop, the loop sleeps exactly the remaining waits and stops itself with the counter at the limit |
| `SshClient.ManageStep` | src/ssh_client.py:208-213 | a pass with the running flag set is one round of the loop |
| `SshClient.GivesUpAfterTenFailures` | src/ssh_client.py:87 | a fresh client whose every connect fails gives up after ten passes with the counter at 10, having slept 5, 10, ..., 45 seconds (225 one-second sleeps) |
| `SshClient.SuccessResets` | src/ssh_client.py:213-214 | a pass whose connect returns leaves the counter at 0, the flag running and the tunnel reported up, without sleeping |
| `SshClient.OtherErrorSleepsFive` | src/ssh_client.py:232-234 | a pass whose connect raises another exception sleeps 5 seconds and does not count a failure |
| `SshClient.DroppedSessionRestartsCount` | src/ssh_client.py:162-231 | a session that comes up and then drops reports True then False and counts as failure 1, whatever the counter was, then waits 5 seconds |
| `SshClient.LiveTunnelIdles` | src/ssh_client.py:235-240 | a tunnel that passes the probe is left alone for ten one-second sleeps |
| `SshClient.StopIsPrompt` | src/ssh_client.py:228-240 | a `stop()` during sleep k is obeyed at once: no sleep follows it and the loop ends with the flag clear |
| `SshClient.NoDuplicateNotifications` | src/ssh_client.py:96-102 | from a new client the callback never gets the same value twice in a row, and its last value is the status flag |
| `SshClient.SSHClient.constructor` | src/ssh_client.py:71-88 | the fields start as `Initial` says |
| `SshClient.SSHClient.UpdateStatus` | src/ssh_client.py:90-102 | the new fields are `Notify` of the old ones |
| `SshClient.SSHClient.CleanupConnection` | src/ssh_client.py:182-200 | the new fields are `CleanupState` of the old ones |
| `SshClient.SSHClient.Stop` | src/ssh_client.py:295-304 | the new fields are `StopState` of the old ones |
| `SshClient.SSHClient.IsConnected` | src/ssh_client.py:271-293 | returns `Liveness` of the fields and changes nothing |
| `SshClient.SSHClient.Connect` | src/ssh_client.py:104-180 | the result, the scrubbed parameters and the new fields are those of `ConnectStep` |
| `SshClient.SSHClient.Sleep` | src/ssh_client.py:231 | the new fields are `SleepState` of the old ones |
| `SshClient.SSHClient.Tick` | src/ssh_client.py:228-231 | the new fields are `Ticks` of the old ones |
| `SshClient.SSHClient.Pass` | src/ssh_client.py:209-243 | the new fields are `RoundStep` of the old ones |
| `SshClient.SSHClient.ManageConnection` | src/ssh_client.py:202-243 | the new fields are `Manage` of the old ones over the given passes |
| `UserAgentParser.Tail` | src/user_agent_parser.py:16-36 | every pattern but `Linux` needs a digit right after its fixed text |
| `UserAgentParser.Search` | src/user_agent_parser.py:41 | a pattern found in the string has its fixed text occurring there |
| `UserAgentParser.FirstMatch` | src/user_agent_parser.py:40-45 | the answer is "Unknown" or the name of a table entry whose pattern is found |
| `UserAgentParser.ParseOs` | src/user_agent_parser.py:4-45 | a known answer names a pattern that occurs in the string |
| `UserAgentParser.FirstMatchWins` | src/user_agent_parser.py:40-43 | an entry wins exactly when its pattern is found and no earlier one is |
| `UserAgentParser.FirstMatchUnknown` | src/user_agent_parser.py:40-45 | "Unknown" exactly when no pattern of the table is found |
| `UserAgentParser.ParseOsUnknown` | src/user_agent_parser.py:40-45 | "Unknown" is returned exactly when none of the five patterns matches |
| `UserAgentParser.ParseOsOrder` | src/user_agent_parser.py:16-43 | the patterns decide in the order Windows, MacOS, iOS, Android, Linux |
| `UserAgentParser.ParseOsNames` | src/user_agent_parser.py:16-45 | the answer is always one of the five names or "Unknown" |
| `UserAgentParser.LinuxNeverUnknown` | src/user_agent_parser.py:34-45 | a string containing "Linux" is never "Unknown" |
| `UserAgentParser.AndroidBeforeLinux` | src/user_agent_parser.py:29-36 | "Linux" is never the answer for a string with an Android version; such a string without an earlier match is "Android" |
| `UserAgentParser.WindowsVersion` | src/user_agent_parser.py:19 | "Windows NT " followed by digits, a dot and digits is "Windows" wherever it stands |
| `UserAgentParser.AndroidAgentIsAndroid` | src/user_agent_parser.py:54 | the Android sample also says "Linux" and is "Android" |
| `UserAgentParser.IPadAgentIsUnknown` | src/user_agent_parser.py:61 | the iPad sample, whose only system token is "like Mac OS X)", is "Unknown" |
| `UserAgentParser.IPhoneAgentIsIOS` | src/user_agent_parser.py:64 | the iPhone sample is "iOS" through "iPhone OS 16_0" |
| `Chrome.GetLocaleConfiguration` | src/chrome.py:17-94 | the default (the English header with UTC) is returned exactly for a code whose lower-case form the table lacks; the header is always one of the seven |
| `Chrome.LocaleIgnoresCase` | src/chrome.py:87 | a code and its lower-case form give the same configuration |
| `Chrome.UtcOnlyForUnknownCodes` | src/chrome.py:87-94 | the UTC zone is given exactly to codes the table does not know |
| `Chrome.UnknownCodeIsEnglishInUtc` | src/chrome.py:87-94 | an unknown code gets the English header of 'en' but not its zone |
| `Chrome.TestedLocales` | tests/test_chrome.py:27-73 | the seven headers, the default header, and the zones of 'en', 'ru', 'UA' and an unknown code |
| `Chrome.UntestedZones` | src/chrome.py:51-82 | the zones of 'fr', 'es', 'cn' and 'de' |
| `Chrome.OverrideKey` | src/chrome.py:169-179 | the map yields one of six keys, 'Unknown' exactly for a name outside the five OS names |
| `Chrome.ScriptToOverride` | src/chrome.py:179 | every key the map yields is in OVERRIDE, so Chrome always gets a script, the one under the key chosen for the system |
| `Chrome.UnreachableScripts` | src/chrome.py:179 | the iPadOS and Windows Server scripts are never chosen |
| `Chrome.WindowsAgentScript` | src/chrome.py:169-179 | a string with a Windows NT version gets the Windows10_Chrome script |
| `Chrome.IPadGetsUnknownScript` | src/chrome.py:179 | the iPad sample gets the 'Unknown' script |
| `ChromeOsInfo.OverrideGet` | src/chrome_os_info.py:1-828 | a script is found exactly for the eight keys of OVERRIDE, and it is the one under that key |
| `Firefox.GetLocaleConfiguration` | src/firefox.py:14-91 | the default is returned exactly for a code whose lower-case form the table lacks |
| `Firefox.SameLocaleAsChrome` | src/firefox.py:14-91 | Firefox's table answers exactly as Chrome's for every code |
| `Firefox.UnknownCodeDefault` | src/firefox.py:84-91 | an unknown code gets 'en-US,en;q=0.9' with UTC at offset 0 |
| `Firefox.OverrideKey` | src/firefox.py:136-145 | 'Unknown' exactly for a name outside the five OS names |
| `Firefox.KeyInOverride` | src/firefox.py:136-145 | the key is in OVERRIDE exactly for names other than Windows, iOS, MacOS and Android |
| `Firefox.ScriptToOverride` | src/firefox.py:145 | the script found, if any, is the Linux one or the 'Unknown' one |
| `Firefox.ScriptOnlyForLinuxOrUnknown` | src/firefox.py:145 | a script is found exactly for strings classified Linux or Unknown |
| `Firefox.AndroidGetsNoScript` | src/firefox.py:136-145 | a string classified Android gets no script under Firefox and the Pixel script under Chrome |
| `Firefox.AndroidAgentScripts` | src/firefox.py:145 | the Android sample gets no script under Firefox and the Pixel script under Chrome |
| `Text.Split` | src/socks_to_http_proxy.py:122 | at least one piece, no piece holds the separator, and every character of a piece comes from the text |
| `Text.JoinSplit` | src/socks_to_http_proxy.py:122 | splitting the request into lines and joining them again gives back the text |
| `Text.SplitLines` | src/socks_to_http_proxy.py:122 | text made of whole lines splits back into those lines, then the pieces of what follows |
| `Text.Strip` | src/socks_to_http_proxy.py:131 | the result is a contiguous piece of the input with no whitespace at either end |
| `Text.LastIndex` | src/socks_to_http_proxy.py:134-135 | none exactly when the character is absent; otherwise an index holding it with none after it |
| `Text.Lower` | src/socks_to_http_proxy.py:123 | same length, each character lowered by `LowerChar` |
| `Text.ParseInt` | src/socks_to_http_proxy.py:136 | `int()` succeeds only on text whose stripped form is non-empty and ends in a digit; a negative result needs a leading '-' |
| `Text.StripPadded` | src/socks_to_http_proxy.py:131 | `strip()` removes exactly the whitespace around a value that neither starts nor ends with whitespace |
| `Text.DecimalRoundTrip` | src/socks_to_http_proxy.py:136 | `int()` of a printed natural number gives the number |
| `Text.LowerIdempotent` | src/socks_to_http_proxy.py:123 | lowering a lowered string changes nothing |

## Left out

- Threads: the accept loop spawns one handler thread per client, `forward_data` runs two forwarding threads and joins them, and `stop()` enumerates threads and calls `thread._stop()` (src/socks_to_http_proxy.py:182-191, 223-241). The model runs one forwarding direction sequentially. It models the stop flag as a boolean, set either by a turn of the copy loop or by an accept event.
- Real socket behaviour: partial sends, timeouts, the 4096 and 10 byte read sizes and bytes left over after `recv(10)`. The recv results are oracle values, so a request may have any length.
- `SocksToHttpProxy.Decode`: a valid multi-byte UTF-8 sequence is dropped instead of decoded to a non-ASCII character. So the model's request text is always ASCII. `len(target_host)` is the frame's length byte, which equals the encoded length only for an ASCII host.
- `Text.ParseInt`: only ASCII digits are modelled. Python's `int()` also accepts other Unicode decimal digits.
- `UserAgentParser.DigitRun`: `\d` is modelled as the ASCII digits '0'..'9' only. Python's `re` matches any Unicode decimal digit with `\d` on a `str` pattern, so `UserAgentParser.ParseOs` answers "Unknown" (or a later system) for a version written in, say, Arabic-Indic digits, where Python would name the earlier system.
- `Text.Strip`: the contract says the result is a whitespace-free-ended piece of the input, not that only whitespace was removed; `Text.StripPadded` states the exact result for a value surrounded by whitespace.
- `Text.LowerChar`: only 'A'..'Z' and the Kelvin sign are lowered. Every other non-ASCII character is left as is. That is enough for comparing against "host:" but is not the full Unicode case mapping.
- The asyncssh, aiohttp and aiohttp_socks calls, password decryption and `asyncio.sleep` are oracles and a log of sleeps. The model does not cover the probe's URL, SSL flag and timeout, or the 10-second connect timeout as time.
- `SshClient.StopIsPrompt`: a `stop()` from another task is modelled only as landing during one chosen sleep, not at any other await point.
- The outer `except Exception` of `manage_connection` (src/ssh_client.py:241-243) cannot be reached in the model, because `is_connected` and the inner handlers catch everything the oracles raise.
- `SSHClient.shutdown` (src/ssh_client.py:306-310) awaits library shutdown only and is not part of this model.
- Logging everywhere, and the `sys.exit(1)` of the proxy constructor, which is recorded as a flag.
- The JavaScript of each `OVERRIDE` script: a script is known only by its key.
