# ProxyFlow background worker: profile and connection state

ProxyFlow is a browser extension that keeps a list of HTTP proxy profiles and
switches the browser's proxy to one of them. Its background worker
(`background.js`) owns one persisted record: the profiles, the id of the
active profile, a connection status and the last ping. It answers messages
from the two UI views. This project models the worker's state machine and
proves its properties:

- `loadState`: the stored record spread over the defaults.
- `saveProfile`: validation, then update in place or append.
- `deleteProfile`: filter by id, resetting the connection when the active
  profile goes.
- `handleProxyToggle`: deactivate the active profile, or activate another.
- `applyProxy`: the proxy host string, with percent-encoded credentials, and
  the fixed-servers configuration around it.

The model has two layers:

- `Lifecycle.Save`, `Lifecycle.Delete` and `Lifecycle.Toggle` are pure
  transitions of the loaded state. Each returns the final state object, the
  reply, whether `saveState` was called, and the proxy call that took effect.
  Their contracts and the lemmas beside them state the properties.
- `Worker.BackgroundWorker` is a class. Its fields are the record under the
  storage key and the browser's proxy setting. Its handler methods follow
  the handlers' steps: load, change the loaded object one field at a time,
  save. Their postconditions tie the reply, the new storage and the new proxy
  setting to the pure transitions. They also state read-after-write: the next
  successful load returns the state just saved. Both layers load through
  `Store.LoadedState`, whose defaults are always the declared empty ones;
  the shared defaults array of background.js:13 is modelled on its own in
  `SharedDefaults` (see "## Findings").

Host calls are parameters. Every `chrome.*` call is a `bool` outcome:

- `readOk`: `chrome.storage.local.get` succeeded.
- `writeOk`: `chrome.storage.local.set` succeeded.
- `clearOk`: `chrome.proxy.settings.clear` succeeded.
- `applyOk` / `setOk`: `chrome.proxy.settings.set` succeeded.

The fresh id `Date.now().toString()` is the parameter `freshId`. Nothing in
the model assumes that it is unique. `Lifecycle.SavePreservesUniqueIds` says
exactly what uniqueness needs.

`parseInt` (`Port.ParseInt`) follows ECMAScript for a call with no radix:

- leading white space is skipped (the full StrWhiteSpaceChar set);
- one optional sign is read;
- a `0x`/`0X` prefix switches to radix 16;
- the longest digit prefix is read, and no digit at all gives NaN (`None`).

`encodeURIComponent` (`ProxyConfig.EncodeURIComponent`) is percent-encoding
as in section 2.1 of RFC 3986. It applies to the UTF-8 bytes of every
character outside `A-Z a-z 0-9 - _ . ! ~ * ' ( )`, with upper-case hex digits.

Notes on what background.js does and does not do:

- Saving an edited profile that is active does not re-apply it
  (background.js:134-145).
- `applyProxy` does no port check of its own (background.js:169-199). Its
  port is `parseInt` of whatever the profile holds. A stored profile passed
  the save rule, so the port is in range (`ProxyConfig.ConfigFor`).
- No code in background.js sets `connected`, `error` or a ping; there is no
  delayed probe and no periodic monitor (`Lifecycle.HandlersNeverProbe`).
- Activating another profile keeps the previous `lastPing`
  (background.js:111-113). A state that holds a ping while connected to one
  profile becomes `connecting` to the other with the old ping
  (`Lifecycle.SwitchKeepsStalePing`).

## Model

| member | source | states |
|---|---|---|
| `Store.LoadedState` | background.js:2-18 | a failed or empty read gives exactly the defaults; otherwise each field present in the stored record overrides that default and each absent field keeps it |
| `Store.Snapshot` | background.js:21-25 | `saveState` writes all four fields, so no default survives the next load |
| `Store.LoadAfterSave` | background.js:21-25 | loading what `saveState` stored gives back exactly the saved state (read after write) |
| `Store.LoadSaveLoad` | background.js:10-25 | a loaded state, saved and loaded again, is unchanged |
| `Store.EmptyRecordIsDefault` | background.js:13 | a stored record with none of the four fields loads as the defaults |
| `Worker.BackgroundWorker.LoadState` | background.js:10-18 | the loaded state is the merge of the stored record over the defaults, and the defaults when the read throws or nothing is stored |
| `Worker.BackgroundWorker.SaveState` | background.js:21-30 | a successful write replaces the record with the whole state, which the next load returns; a failed write leaves the record as it was; the result is the write's outcome |
| `Worker.BackgroundWorker.ApplyProxy` | background.js:169-199 | on success the browser setting becomes the fixed-servers configuration built from the profile; on failure it is unchanged |
| `Worker.BackgroundWorker.ClearProxy` | background.js:87 | on success the browser setting is cleared; on failure it is unchanged |
| `Worker.BackgroundWorker.HandleProxyToggle` | background.js:81-117 | the reply, the stored record and the browser setting are those of `Lifecycle.Toggle` on the loaded state; after a saving run the next load returns the new state |
| `Worker.BackgroundWorker.SaveProfile` | background.js:119-146 | the reply and the stored record are those of `Lifecycle.Save` on the loaded state, and the proxy setting is untouched; after a saving run the next load returns the new state |
| `Worker.BackgroundWorker.DeleteProfile` | background.js:148-167 | the reply, the stored record and the browser setting are those of `Lifecycle.Delete` on the loaded state; after a successful write the next load returns the new state |
| `Worker.BackgroundWorker.GetProxyData` | background.js:71 | GET_PROXY_DATA returns the loaded state |
| `Worker.DeleteTwice` | background.js:148-167 | two DELETE_PROFILE messages for one id both reply success, and the second leaves the stored record exactly as the first left it |
| `Worker.SaveThenGet` | background.js:119-146 | after saving a new valid profile, GET_PROXY_DATA shows it as the last entry under the fresh id, the list one longer |
| `Lifecycle.Save` | background.js:119-146 | a missing name, host or port, or a port outside 1..65535, gives that error with the state unchanged and nothing saved; a draft whose id is stored replaces that entry at the same index, with the same length and all other entries and the connection fields unchanged, and replies with the draft's id; any other draft gets the fresh id, is appended last after the unchanged earlier entries, and the reply carries the fresh id |
| `Lifecycle.Delete` | background.js:148-167 | always replies success and saves; the profiles are those without the id, in order; deleting the active id resets active id, status and ping whatever the clear's outcome, and deleting another id leaves them unchanged; the proxy is cleared only if the id was active and the clear succeeded |
| `Lifecycle.Toggle` | background.js:81-117 | toggling the active id clears the proxy and resets the connection fields, replying disabled, or on a failed clear replies an error with the state unchanged; toggling another id, if that id is missing or the apply fails, replies an error with the state unchanged; otherwise it applies that profile's configuration, makes the id active and `connecting` with profiles and ping untouched, and replies enabled |
| `Lifecycle.HasRequiredFields` | background.js:123-125 | the required-fields test: name, host and port each non-empty, JavaScript's `!` on a string being true exactly of the empty string |
| `Lifecycle.PassesValidation` | background.js:123-131 | a draft passes both checks exactly when its name and host are non-empty and its port passes the port rule, which already rejects an empty port |
| `Lifecycle.SavePreservesConsistent` | background.js:119-146 | saving keeps the invariants: an active id names a stored profile, nothing is active exactly when disconnected, every stored profile passes validation (its port in 1..65535) |
| `Lifecycle.DeletePreservesConsistent` | background.js:148-167 | deleting keeps the same invariants |
| `Lifecycle.TogglePreservesConsistent` | background.js:81-117 | toggling keeps the same invariants |
| `Lifecycle.DefaultConsistent` | background.js:2-7 | the defaults satisfy the invariants |
| `Lifecycle.HandlersNeverProbe` | background.js:81-167 | from a state without ping that is disconnected or connecting, every handler leads to such a state again |
| `Lifecycle.SwitchKeepsStalePing` | background.js:111-113 | activating another profile while one is connected with a ping leaves the new one `connecting` with the old ping |
| `Lifecycle.DeleteIdempotent` | background.js:148-167 | a second delete of the same id, whatever its clear outcome, replies success, leaves the state as the first left it and touches no proxy |
| `Lifecycle.ToggleTwiceDeactivates` | background.js:81-117 | toggling an id that has just been activated deactivates it, with the profile list untouched |
| `Lifecycle.SavePreservesUniqueIds` | background.js:134-142 | saving keeps profile ids distinct provided the fresh id is not already in use |
| `Lifecycle.DeletePreservesUniqueIds` | background.js:164 | deleting keeps profile ids distinct |
| `Lifecycle.RemoveIdUnique` | background.js:164 | filtering a list with distinct ids leaves distinct ids |
| `Lifecycle.SaveThenUpdate` | background.js:134-145 | a new draft is appended under the fresh id; re-saving it under that id with another host replaces that entry and adds none |
| `Profiles.FindIndex` | background.js:134 | the index is -1 exactly when no profile has the id; otherwise that profile has the id and no earlier one does |
| `Profiles.Find` | background.js:101 | for `find`: nothing exactly when no profile has the id; otherwise the profile at the first index that carries the id |
| `Profiles.RemoveId` | background.js:164 | no kept profile has the id; a profile is kept exactly when it is in the list and has another id; a list without the id is unchanged |
| `Profiles.RemoveIdAppend` | background.js:164 | the filter distributes over concatenation, so the kept profiles stay in their order |
| `Profiles.RemoveIdIdempotent` | background.js:164 | filtering twice by one id is filtering once |
| `Profiles.RemoveIdKeepsOthers` | background.js:164 | a profile with another id survives the filter |
| `Port.ParseInt` | background.js:128 | a string that is empty or all white space is NaN; a negative result needs a `-` as the first character after the white space |
| `Port.PortValid` | background.js:128-131 | the port rule accepts exactly a `parseInt` value in 1..65535, and an accepted port starts, after white space, with a digit or a `+` (so it is never empty) |
| `Port.LeadingSpace` | background.js:128 | the skipped prefix is all white space, and the character after it, if any, is not white space |
| `Port.DigitRun` | background.js:128 | the digit run is the longest prefix of digits of the radix |
| `Port.ParseIntAtDigit` | background.js:128 | a string that starts with a decimal digit is parsed with no white space or sign step |
| `Port.ParseIntOfDecimal` | background.js:128 | the decimal numeral of every natural number parses back to that number |
| `Port.ParseIntIgnoresTail` | background.js:128 | a decimal numeral followed by text that does not start with a digit or an `x` parses as the numeral alone |
| `Port.UnsignedDecimal` | background.js:128 | the digits after the sign of such a string read as the numeral's value |
| `Port.PortValidDecimal` | background.js:128-131 | the port rule accepts a numeral exactly when its value is in 1..65535 |
| `Port.PortRejectsOutOfRange` | background.js:128-131 | ports "0" and "65536" are rejected |
| `Port.PortAcceptsRangeEnds` | background.js:128-131 | ports "1" and "65535" are accepted |
| `Port.PortAccepts8080` | background.js:128-131 | port "8080" is accepted |
| `Port.PortWithTrailingLetters` | background.js:128-131 | "80abc" parses as 80 and is accepted |
| `Port.PortRejectsNonNumeric` | background.js:128-131 | "abc" and "" are NaN; "-80" is -80 and rejected |
| `Port.ParseIntSkipsSpaceAndSign` | background.js:128 | " +443" parses as 443 |
| `Port.HexPrefixExamples` | background.js:128 | "0x1F" parses as 31, a bare "0x" as NaN |
| `ProxyConfig.EncodingAlphabet` | background.js:175 | `encodeURIComponent` output holds only unreserved characters and `%`, so no `:` and no `@` |
| `ProxyConfig.EncodeUnreservedIdentity` | background.js:175 | a string of unreserved characters encodes as itself |
| `ProxyConfig.DecodeEncode` | background.js:175 | percent-decoding the encoding gives back the UTF-8 bytes of the original |
| `ProxyConfig.ProxyHostSplits` | background.js:174-176 | with both credentials: the first `:` ends the encoded username, the first `@` ends the encoded password, and the host follows that `@` unchanged |
| `ProxyConfig.ProxyHostBare` | background.js:174-176 | without both a username and a password, the host string is the bare host |
| `ProxyConfig.ConfigShape` | background.js:178-190 | the configuration is `fixed_servers`, scheme `http`, bypass list `["<local>"]`, host the host string, and port `parseInt` of the profile's port |
| `ProxyConfig.ConfigFor` | background.js:178-190 | for a profile whose port passes the save rule, the configured port is a number in 1..65535 |
| `ProxyConfig.ProxyHost` | background.js:174-176 | the host string is the bare host exactly when the username or the password is empty, and it always ends with the host unchanged |
| `ProxyConfig.EncodeURIComponent` | background.js:175 | every character becomes between 1 and 12 output characters (up to four UTF-8 bytes, three characters each) |
| `ProxyConfig.CredentialExample` | background.js:174-176 | user `user`, password `p@ss`, host `proxy.example.com` give `user:p%40ss@proxy.example.com` |
| `SharedDefaults.LoadAsWritten` | background.js:2-18 | the loaded list is the shared `DEFAULT_STATE.profiles` array exactly when the stored record gives no profiles |
| `SharedDefaults.DefaultsAfterSave` | background.js:136-141 | one save changes `DEFAULT_STATE.profiles` only when the loaded list was that array and the draft passed validation; it grows by at most one, and a growth appends the draft under the fresh id behind the unchanged old entries |
| `SharedDefaults.AgreesWhileDefaultsEmpty` | background.js:2-18 | while the shared array is empty, loading as written agrees with `Store.LoadedState` |
| `SharedDefaults.DefaultsLeakAfterFailedRead` | background.js:136-141 | with storage failing, saving one new profile writes it into the defaults, and the next failed read loads it back |

## Left out

- The `chrome.storage` and `chrome.proxy.settings` calls are host APIs; each is a success-or-failure parameter. The `PROXY_DATA_UPDATED` broadcast through `chrome.runtime.sendMessage` that follows a successful save is not modelled.
- The `console.error` logging (background.js:15, 27, 89, 107, 156) has no effect on the state or the replies and is not modelled.
- The `onInstalled` and `onStartup` listeners (background.js:33-62) are host event plumbing and are not modelled.
- The message router (background.js:65-78) and interleaving of handlers across `await` points are event-loop concurrency. Each handler is atomic here.
- `testConnection` (background.js:201-219) is a network fetch with a timer and wall-clock latency, so it is not modelled.
- A stored value of the wrong type (for example a non-object record, a string status, or null profiles) cannot be expressed, because the model is typed. Extra properties in the stored record, which the spread would copy, are dropped.
- An absent username or password and an empty one are both the empty string, because the worker only tests them for truthiness.
- `Port.ParseInt`: values are exact integers; JavaScript rounds any result above 2^53 to a double, and all such values exceed 65535, so the port rule decides the same.
- `Worker.BackgroundWorker.LoadState`, `Lifecycle.Save`, `Lifecycle.Delete` and `Lifecycle.Toggle` load through the corrected `Store.LoadedState`: after a failed or empty read their profile list is a fresh empty list, not the shared `DEFAULT_STATE.profiles` array of background.js:13 and :16. So the writes of background.js:136 and :141 into that array are not reflected in these layers; `SharedDefaults` models them.
- `ProxyConfig.EncodeURIComponent`: a JavaScript string may hold a lone surrogate, on which `encodeURIComponent` throws URIError (background.js:175). The throw happens inside the Promise executor, so the toggle replies "Failed to connect. Check proxy settings.". Dafny strings hold Unicode scalar values only, so that case cannot be expressed in the model.
- popup.js and edit.js (DOM rendering, UI validation and trimming) are not part of this model.

## Findings

| source | as written | input that shows it | evidently intended | confidence | as-written member | corrected member |
|---|---|---|---|---|---|---|
| background.js:13 | `{...DEFAULT_STATE}` is a shallow copy, so the loaded `profiles` is the `DEFAULT_STATE.profiles` array itself; `saveProfile`'s `push` (and in-place update) then writes into the defaults | storage read throws; save the valid draft `{name: "A", host: "1.2.3.4", port: "8080"}`; the next read also throws, and the loaded state contains that profile instead of an empty list | the defaults stay empty: a failed or empty read always loads DEFAULT_STATE as declared | high (not executed) | `SharedDefaults.DefaultsLeakAfterFailedRead` | `Store.LoadedState` |
