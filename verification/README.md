# SpotiFLAC-Server configuration, settings and notification model

This Dafny project models the logic core of SpotiFLAC-Server, a self-hosted Go
HTTP server with a TypeScript web frontend that downloads lossless music. The
model covers four parts of that server.

**Configuration** (`config_loader.dfy`). `Load` reads the YAML file, fills in
defaults (`applyDefaults`), applies the `SPOTIFLAC_*` environment overrides
(`applyEnvOverrides`) and checks five validation rules (`validate`). Only a
configuration that passes validation is published in the package-level
`globalConfig` pointer, by `Load` or by `Save`.
- `ConfigRef` stands for a `*Config` pointer.
- `ConfigStore` holds `globalConfig`. `PublishedValid` states that the published configuration is valid. `Load`, `Save` and `SaveSettingsAtomic` preserve it; `SaveSettings` as written does not (see Findings).

**Settings editing** (`cli_config.dfy`, `settings_api.dfy`).
- The CLI's `config get` and `config set` address fields with dotted keys such as `download.path`.
- The web API's `GET /api/settings` projects sixteen fields onto flat JSON keys.
- `POST /api/settings` merges such a map back into the configuration, key by key, and then saves it.

**Request handlers** (`request_api.dfy`). Gin binds each request body into a
struct, then the handler checks and normalises it (trimming, limit and region
defaults, the `..` check). The model ends at the back-end call the handler makes,
which it returns as a value. gin's `binding:"required"` refuses a missing or
empty string at binding time. So the explicit empty checks that follow binding
(server/api/handler.go:51-54, 118-121, 158-161, 192-195) can never fire, and the
model has no branch for them.

**Notifications** (`ws_server.dfy`, `ws_client.dfy`).
- The server's `WebSocketManager` holds a set of connections and a broadcast buffer of capacity 100. `Broadcast` drops a message when the buffer is full.
- The browser's `WebSocketClient` keeps a registry of handlers per event name and reconnects with exponential backoff (1 s doubling to 30 s, at most 10 attempts).
- Goroutines, timers and socket events are single steps that the environment calls.

Shared pieces: `text.dfy` holds the parts of Go's `strings`, `strconv` and
`path/filepath` the code relies on, `json.dfy` a JSON value type,
`config_types.dfy` the configuration records, and `wrappers.dfy` the
Option/Result/Outcome types.

Interfaces with the outside world become parameters:
- the parsed YAML file: `parsed`, None on a read or parse error;
- whether the file write succeeds: `writeSucceeds`;
- `os.UserHomeDir`: `home`, None on error;
- the environment: `env`;
- which client writes fail: `failing`;
- whether `new WebSocket` throws: `constructorThrows`;
- the back end's progress and queue: `ProgressInfo`, a JSON value.

## Model

| member | source | states |
|---|---|---|
| ConfigLoader.DefaultDownloadPath | backend/config/loader.go:69-77 | the default download directory is never empty: `Music` under the home directory, or `./downloads` when the home directory is unknown |
| ConfigLoader.Defaulted | backend/config/loader.go:56-105 | every field already set is kept; every empty field gets its documented default; fields without a default are untouched; afterwards host, port, CORS origins, download path, filename format, audio format, default service, theme, theme mode, font family and database path are all set |
| ConfigLoader.ApplyDefaults | backend/config/loader.go:56-105 | filling `*cfg` in place, field by field, leaves exactly `Defaulted` of the old configuration |
| ConfigLoader.ApplyServerDefaults | backend/config/loader.go:57-66 | only the server section changes, to its defaulted form |
| ConfigLoader.ApplyDownloadDefaults | backend/config/loader.go:68-83 | only the download section changes, to its defaulted form |
| ConfigLoader.ApplyDownloadPathDefault | backend/config/loader.go:69-77 | an empty download path becomes the home-derived default; a set one is kept; nothing else changes |
| ConfigLoader.ApplyRemainingDefaults | backend/config/loader.go:85-104 | the default service, the three UI fields and the database path are defaulted; the server and download sections are untouched |
| ConfigLoader.DefaultedIdempotent | backend/config/loader.go:56-105 | applying the defaults twice gives the same configuration as applying them once |
| ConfigLoader.WithEnvOverrides | backend/config/loader.go:110-130 | the port changes only to a value that parses as an integer; host, download path and default service take any non-empty variable; an unset or empty variable changes nothing; no other field changes |
| ConfigLoader.ApplyEnvOverrides | backend/config/loader.go:110-130 | the in-place overrides leave exactly `WithEnvOverrides` of the old configuration |
| ConfigLoader.ApplyServerOverrides | backend/config/loader.go:111-119 | only the server section changes, by the port and host variables |
| ConfigLoader.ApplyStorageOverrides | backend/config/loader.go:121-129 | only the download path and the default service change, by their variables |
| ConfigLoader.NoOverridesWithoutVariables | backend/config/loader.go:110-130 | an environment without the four variables leaves the configuration unchanged |
| ConfigLoader.PortOverride | backend/config/loader.go:112-116 | setting SPOTIFLAC_SERVER_PORT to the decimal spelling of a port selects that port |
| ConfigLoader.Validate | backend/config/loader.go:134-177 | passes exactly when all five rules hold (port in 1024..65535, no `..` in the download path, audio format in {LOSSLESS, 6, 7, 27}, service in {tidal, qobuz, amazon}, theme mode in {light, dark, auto}); otherwise reports the first failing rule in that order, with the offending value |
| ConfigLoader.ValidateIgnoresFreeFields | backend/config/loader.go:134-177 | host, CORS origins, filename format, flags, URLs, theme, font family and database path do not affect validation |
| ConfigLoader.DefaultedValid | backend/config/loader.go:56-105 | a configuration whose set fields already obey the rules (port possibly unset) is valid after the defaults, provided the home directory has no `..` |
| ConfigLoader.EmptyConfigDefaultsValid | backend/config/loader.go:56-105 | a configuration file that sets nothing loads as a valid configuration, provided the home directory has no `..` |
| ConfigLoader.ConfigStore.constructor | backend/config/loader.go:13 | `globalConfig` starts as nil |
| ConfigLoader.ConfigStore.Load | backend/config/loader.go:17-44 | a read or parse error is reported; otherwise defaults, then overrides, then validation; an invalid result is reported with its first failing rule and leaves `globalConfig` as it was; a valid one is published as a fresh pointer |
| ConfigLoader.ConfigStore.Get | backend/config/loader.go:48-53 | returns the published pointer; callable only after a successful Load (the source panics otherwise) |
| ConfigLoader.ConfigStore.Save | backend/config/loader.go:181-207 | an invalid configuration is refused before any write and `globalConfig` is unchanged; a failed write leaves it unchanged; a successful write publishes the saved pointer; a valid published configuration stays valid |
| CliConfig.GetConfigValue | cmd/cli/main.go:265-308 | an unknown section, or an unknown field of a known section, gives nil; a one-segment key naming a section gives the whole section record |
| CliConfig.SettingNamed | cmd/cli/main.go:319-347 | the settable field a section and field name denote lies in that section under that name; sections other than download and services have none |
| CliConfig.Assign | cmd/cli/main.go:328-341 | exactly one settable field changes, to the given value; every other field and section is unchanged |
| CliConfig.StoredPath | cmd/cli/main.go:324-327 | a value without a leading `~/` is stored verbatim; one with it keeps everything after the `~/` as its tail, starts with the home directory when that is known and non-empty, and is exactly that tail when the home directory is unknown or empty |
| CliConfig.ConfigAfterSet | cmd/cli/main.go:311-350 | a value containing `..` is refused first, then an unknown section, then a field the section does not have (an unknown-key error naming the key); otherwise the result is the configuration with exactly the named field set to the stored value |
| CliConfig.SetConfigValue | cmd/cli/main.go:311-350 | updates `*cfg` in place as `ConfigAfterSet` says, leaving it unchanged on every error; it requires a second key segment for the download and services sections, which the source indexes unchecked |
| CliConfig.SectionOnlyKeyPanics | cmd/cli/main.go:319-321 | `download` or `services` alone, with a value free of `..`, does not meet that requirement: the source panics on it |
| CliConfig.ConfigAfterSetGuarded | cmd/cli/main.go:311-350 | the same outcomes for every key, the same unknown-key error for an unknown field, and that error too for a key naming only an editable section |
| CliConfig.SetConfigValueGuarded | cmd/cli/main.go:311-350 | callable with any key; updates `*cfg` as `ConfigAfterSetGuarded` says |
| CliConfig.SettingKeySplits | cmd/cli/main.go:266 | the key of each settable field splits into its section and field name, which name that field again |
| CliConfig.SetThenGet | cmd/cli/main.go:265-350 | setting any settable key to a value without `..` succeeds, and getting the same key then returns the stored value (with `~/` expanded for `download.path`) |
| CliConfig.ServerKeysReadOnly | cmd/cli/main.go:295-304 | `server.port` and `server.host` can be read, and setting them reports the unknown section `server` |
| CliConfig.SectionKeys | cmd/cli/main.go:270-272 | a section name alone reads the whole section record, for download, services and server |
| CliConfig.DownloadFlagsReadOnly | cmd/cli/main.go:280-283 | `download.embed_lyrics` and `download.allow_fallback` are readable but setting them reports an unknown key |
| SettingsApi.KeyFor | server/api/handler.go:219-236 | the setting a JSON key names, when it names one, has that key as its name |
| SettingsApi.KeyForKeyName | server/api/handler.go:219-236 | every setting is found again from its own JSON key |
| SettingsApi.Read | server/api/handler.go:219-236 | the JSON value reported for a setting has the setting's type (boolean for the seven flags, string otherwise) |
| SettingsApi.SettingsOf | server/api/handler.go:219-236 | the projection has no keys beyond the sixteen setting names |
| SettingsApi.SettingsOfReads | server/api/handler.go:219-236 | every one of the sixteen settings appears under its key with its field's value |
| SettingsApi.GetSettings | server/api/handler.go:215-240 | the answer maps every setting's key to the published configuration's field value, and holds no other keys |
| SettingsApi.Merged | server/api/handler.go:256-323 | the server and database sections cannot be changed through the settings map |
| SettingsApi.MergedPicks | server/api/handler.go:256-323 | after the merge, each of the sixteen fields holds the request's value if the request carries that key with the right type, and its previous value otherwise |
| SettingsApi.UnknownKeysIgnored | server/api/handler.go:256-323 | a key that names no setting has no effect |
| SettingsApi.EmptyMergeIsIdentity | server/api/handler.go:256-323 | an empty settings map changes nothing |
| SettingsApi.Assign | server/api/handler.go:256-323 | writing a value of the right type to a setting's field reads back as that value; every other setting reads as before, and the server and database sections are unchanged |
| SettingsApi.MergeOutcome | server/api/handler.go:256-323 | the merge is refused exactly when `downloadPath` is a string containing `..`; an accepted merge never introduces a `..` into the download path |
| SettingsApi.GetThenSaveRoundTrip | server/api/handler.go:215-323 | merging back the map GetSettings produced leaves the configuration unchanged, unless the stored download path itself contains `..`, in which case it is refused |
| SettingsApi.ReadsDetermine | server/api/handler.go:219-236 | two configurations with equal server and database sections that agree on all sixteen settings are equal |
| SettingsApi.Status | server/api/handler.go:243-334 | the reply is 200 exactly when the settings were saved |
| SettingsApi.BindSettings | server/api/handler.go:244-249 | a JSON object or null binds into a settings map; any other body is an invalid settings format |
| SettingsApi.ApplySetting | server/api/handler.go:263-323 | one `if val, ok := settings[key].(T)` update: the field changes only when the key is present with the right type |
| SettingsApi.MergeDownloadFormats | server/api/handler.go:263-281 | the filename format, audio format and two embedding flags are merged; nothing else changes |
| SettingsApi.MergeDownloadNumbering | server/api/handler.go:283-297 | the numbering, artist and fallback flags are merged; nothing else changes |
| SettingsApi.MergeServices | server/api/handler.go:299-313 | only the services section changes, to its merged form |
| SettingsApi.MergeUI | server/api/handler.go:315-325 | only the UI section changes, to its merged form |
| SettingsApi.MergeRest | server/api/handler.go:263-325 | every key after `downloadPath` is merged into the download, services and UI sections; the download path, server and database are untouched |
| SettingsApi.MergedInTwoSteps | server/api/handler.go:256-325 | merging `downloadPath` first and then the other keys yields the merged configuration |
| SettingsApi.MergeSettings | server/api/handler.go:256-325 | the in-place merge succeeds exactly when `MergeOutcome` accepts the map; on refusal nothing has been written, otherwise the configuration is the merged one |
| SettingsApi.SaveSettings | server/api/handler.go:243-334 | as written: a bad body gives 400 and changes nothing; a `..` download path gives 400 and changes nothing; otherwise the published configuration becomes the merged one whether or not the save succeeds, and the reply is 200 exactly when the merged configuration is valid and written |
| SettingsApi.RejectedSaveLeavesInvalidConfig | server/api/handler.go:243-334 | from any valid configuration, the request `{"themeMode": "bogus"}` merges but fails validation on the theme mode |
| SettingsApi.SaveSettingsAtomic | server/api/handler.go:243-334 | the merge goes into a copy that is published only when the save succeeds: the same replies, the published configuration is unchanged on every non-200 reply, and a valid published configuration stays valid |
| RequestApi.BindString | server/api/handler.go:38-48 | a missing key or null binds the zero value ""; a JSON string binds as itself; any other JSON type is a binding error |
| RequestApi.BindInt | server/api/handler.go:107-115 | a missing key or null binds 0; a JSON number binds as itself exactly when it fits 64 bits; any other JSON type is a binding error |
| RequestApi.BindBool | server/api/handler.go:38-48 | a missing key or null binds false; a JSON boolean binds as itself; any other JSON type is a binding error |
| RequestApi.BindRequired | server/api/handler.go:38-48 | a required field binds exactly when it is present as a non-empty string, to that string |
| RequestApi.BindMetadata | server/api/handler.go:38-48 | a bound metadata request has a non-empty URL |
| RequestApi.BindSearch | server/api/handler.go:107-115 | a bound search request has a non-empty query |
| RequestApi.BindSearchByType | server/api/handler.go:145-155 | a bound request has a non-empty query and search type |
| RequestApi.BindStreaming | server/api/handler.go:182-190 | a bound request has a non-empty Spotify track ID |
| RequestApi.BindAnalyze | server/api/handler.go:473-480 | a bound request has a non-empty file path |
| RequestApi.GetSpotifyMetadata | server/api/handler.go:37-103 | an unbindable body is an invalid request format; otherwise the URL is trimmed of white space and the call goes through the SpotFetch API exactly when that API is enabled and has a URL, with the batch flag passed on |
| RequestApi.SearchSpotify | server/api/handler.go:106-141 | the query is trimmed; a limit of 0 or less becomes 10, a positive one is kept, so the limit used is at least 1 |
| RequestApi.SearchSpotifyByType | server/api/handler.go:144-178 | a limit of 0 or less becomes 50, a positive one is kept; the offset and the untrimmed query and type are passed on |
| RequestApi.GetStreamingURLs | server/api/handler.go:181-212 | an empty region becomes "US", any other is kept, so the region used is never empty |
| RequestApi.AnalyzeTrack | server/api/handler.go:472-497 | a file path containing `..` is refused; every other bound path is analysed as given |
| RequestApi.WhitespaceOnlyPassesValidation | server/api/handler.go:51-57 | a URL or query made only of white space passes binding and the emptiness check, and is trimmed to "" |
| RequestApi.EmptyRequiredRefused | server/api/handler.go:38-48 | a missing or empty required string is refused at binding time |
| WsServer.Offer | server/api/websocket.go:109-115 | a send appends when fewer than 100 messages are pending and otherwise leaves the buffer unchanged |
| WsServer.OfferAllKeepsPrefix | server/api/websocket.go:109-115 | any series of sends keeps the first messages that fit, in order, drops the rest, and never exceeds the capacity of 100 |
| WsServer.BurstIntoEmptyBuffer | server/api/websocket.go:40 | 150 sends into an empty buffer keep exactly the first 100 |
| WsServer.WebSocketManager.constructor | server/api/websocket.go:37-42 | no clients and an empty buffer |
| WsServer.WebSocketManager.AddClient | server/api/websocket.go:95-99 | the connection becomes a member; the buffer is unchanged |
| WsServer.WebSocketManager.RemoveClient | server/api/websocket.go:102-106 | the connection is no longer a member; removing an absent one changes nothing |
| WsServer.WebSocketManager.Broadcast | server/api/websocket.go:109-115 | never blocks: queued exactly when fewer than 100 messages are pending, dropped otherwise; the buffer stays within capacity |
| WsServer.WebSocketManager.DeliverNext | server/api/websocket.go:47-57 | takes the oldest pending message and writes it to every registered client; exactly the clients whose write fails are removed, and the rest are reached |
| WsServer.WebSocketManager.PollUpdates | server/api/websocket.go:67-92 | one pass sends the messages of `PollMessages`, in order, into the buffer |
| WsServer.PollMessages | server/api/websocket.go:71-85 | a download_progress message exactly when a download runs, always followed by one queue_update |
| WsServer.HandleClientMessage | server/api/websocket.go:165-191 | a missing or non-string type, or an unknown type, gets no answer; ping gets one pong; request_status gets one status_update with progress and queue |
| WsServer.BroadcastDownloadProgress | server/api/websocket.go:195-202 | does nothing while the manager is nil; otherwise offers one download_progress message |
| WsServer.BroadcastQueueUpdate | server/api/websocket.go:205-212 | does nothing while the manager is nil; otherwise offers one queue_update message |
| WsServer.BroadcastMessage | server/api/websocket.go:215-232 | as written: an error exactly when the manager is nil; otherwise the json.Marshal bytes of the envelope are offered, which go out as a JSON string |
| WsServer.BroadcastEnvelope | server/api/websocket.go:215-232 | the same nil guard, but the envelope itself is offered, and when there was room the last queued frame is the object `{type, data}` |
| WsClient.NextDelay | frontend/src/api/websocket.ts:91-92 | the next delay doubles, capped at 30000, and stays within [1000, 30000] |
| WsClient.Schedule | frontend/src/api/websocket.ts:75-93 | once 10 attempts are used nothing changes; otherwise a timer with the current delay replaces any pending one and the delay doubles |
| WsClient.ScheduleKeepsBounds | frontend/src/api/websocket.ts:75-93 | scheduling keeps the delay within [1000, 30000] and the attempts within 10, and leaves no timer only when the attempts are used up |
| WsClient.FiredKeepsBounds | frontend/src/api/websocket.ts:85-89 | a timer firing keeps the attempts within 10 |
| WsClient.RetriesBackOff | frontend/src/api/websocket.ts:75-93 | after a fresh client's first failure and n failed retries, the attempt count is min(n, 10), the pending timer waits min(1000·2ⁿ, 30000) ms while n < 10, and from ten retries on no timer remains |
| WsClient.Remove | frontend/src/api/websocket.ts:129 | deleting a handler keeps exactly the others, without duplicates |
| WsClient.WithHandler | frontend/src/api/websocket.ts:111-116 | the callback is registered for the event alongside the earlier ones; other events are unchanged; no entry is empty or duplicated |
| WsClient.WithoutHandler | frontend/src/api/websocket.ts:126-133 | only the callback is removed; an event left without handlers is deleted; other events are unchanged |
| WsClient.OnTwiceIsOnce | frontend/src/api/websocket.ts:111-116 | registering the same callback twice stores it once |
| WsClient.OffUndoesOn | frontend/src/api/websocket.ts:111-133 | removing a callback just registered restores the registry |
| WsClient.Frame | frontend/src/api/websocket.ts:142 | the frame sent reads back, on the receiving side's own parsing, as the given type and data |
| WsClient.WireTypeOf | server/api/websocket.go:47-57 | a client reads an Envelope or TypeOnly message under its type, and an Envelope with its data; a marshalled message arrives as a JSON string with neither |
| WsClient.MarshalledNeverDispatched | server/api/websocket.go:225-230 | a message sent by BroadcastMessage reaches no client handler, whatever is registered |
| WsClient.EnvelopeDispatched | server/api/websocket.go:215-232 | an envelope reaches exactly the handlers registered for its type, with its data |
| WsClient.PingAnswered | frontend/src/api/websocket.ts:158-160 | the server answers the client's ping frame with exactly one pong |
| WsClient.RequestStatusAnswered | frontend/src/api/websocket.ts:151-153 | the server answers the client's request_status frame with one status_update |
| WsClient.WebSocketClient.constructor | frontend/src/api/websocket.ts:24-34 | connects at once from a fresh backoff state and an empty registry |
| WsClient.WebSocketClient.Connect | frontend/src/api/websocket.ts:39-70 | a new socket starts connecting; when its constructor throws, a reconnect is scheduled instead |
| WsClient.WebSocketClient.ScheduleReconnect | frontend/src/api/websocket.ts:75-93 | the backoff state becomes `Schedule` of the old one; the registry and socket are untouched |
| WsClient.WebSocketClient.FireTimer | frontend/src/api/websocket.ts:85-89 | the pending timer fires: the attempt count goes up by one and a new socket starts connecting; when its constructor throws, the next reconnect is scheduled at once |
| WsClient.WebSocketClient.OnOpen | frontend/src/api/websocket.ts:43-47 | the socket is open and the attempts and delay reset to 0 and 1000 |
| WsClient.WebSocketClient.OnClose | frontend/src/api/websocket.ts:58-61 | while the last socket's `onclose` listener is attached, the socket is closed and a reconnect is scheduled; a detached listener changes nothing |
| WsClient.WebSocketClient.On | frontend/src/api/websocket.ts:111-116 | the registry becomes `WithHandler` of the old one |
| WsClient.WebSocketClient.Off | frontend/src/api/websocket.ts:121-135 | without a callback the whole event is removed; with one, the registry becomes `WithoutHandler` of the old one |
| WsClient.WebSocketClient.HandleMessage | frontend/src/api/websocket.ts:98-106 | exactly the handlers `Dispatch` names are called: those registered for the message's type, each once, in registration order, with its data; an unregistered or missing type calls nothing |
| WsClient.WebSocketClient.Send | frontend/src/api/websocket.ts:140-146 | a frame goes out exactly when the socket is open (isConnected, 182-184) and carries the given type and data |
| WsClient.WebSocketClient.RequestStatus | frontend/src/api/websocket.ts:151-153 | sends a request_status frame when connected |
| WsClient.WebSocketClient.Ping | frontend/src/api/websocket.ts:158-160 | sends a ping frame when connected |
| WsClient.WebSocketClient.Close | frontend/src/api/websocket.ts:165-177 | as written: no timer, no socket and an empty registry afterwards; the attempt count and delay stay, and the closed socket keeps its `onclose` listener |
| WsClient.WebSocketClient.CloseDetached | frontend/src/api/websocket.ts:165-177 | the same end state as `close()`, with the socket's `onclose` listener detached |
| WsClient.WebSocketClient.CloseThenCloseEvent | frontend/src/api/websocket.ts:58-61 | `close()` followed by the closed socket's close event leaves a reconnect timer with the old delay pending, while attempts remain |
| WsClient.WebSocketClient.CloseDetachedThenCloseEvent | frontend/src/api/websocket.ts:165-177 | `CloseDetached` followed by that close event leaves no reconnect timer, no socket and no handlers |
| WsClient.CloseEventAfterCloseReschedules | frontend/src/api/websocket.ts:58-61 | while attempts remain, the close event that follows `close()` schedules a reconnect again |
| Text.DotDotConcat | server/api/handler.go:258 | a `..` in a concatenation lies in one part or straddles the seam |
| Text.JoinPath | backend/config/loader.go:73 | joining with an empty part gives the other part; otherwise the result starts with the directory and ends with the name |
| Text.JoinPathNoDotDot | backend/config/loader.go:73 | joining two parts without `..` never creates one |
| Text.TrimSpace | server/api/handler.go:57 | the result is empty exactly when the input is all white space, otherwise it neither starts nor ends with white space |
| Text.Split | cmd/cli/main.go:266 | splitting on `.` gives at least one part and no part contains a dot |
| Text.SplitJoin | cmd/cli/main.go:266 | joining the parts with `.` gives back the key |
| Text.SplitNoDot | cmd/cli/main.go:266 | a key without a dot is a single part |
| Text.SplitDotted | cmd/cli/main.go:266 | `section.name` with dot-free parts splits into exactly those two parts |
| Text.Atoi | backend/config/loader.go:113 | a parsed value fits 64 bits; the empty string and a lone sign do not parse |
| Text.AtoiDecimal | backend/config/loader.go:113 | the decimal spelling of every non-negative 64-bit value parses back to it |

## Left out

- Reading and writing config.yml (`os.ReadFile`, YAML decoding and encoding, `MkdirAll`, `WriteFile`): these become the `parsed` and `writeSucceeds` parameters.
- `os.UserHomeDir` and `os.Getenv` become the `home` and `env` parameters.
- Text.JoinPath: does not apply `filepath.Clean` to the joined path, so dot segments and repeated slashes are kept as written.
- Text.IsSpace: covers the Latin-1 and Unicode white space of Go's `unicode.IsSpace` over characters, not invalid UTF-8.
- JSON decoding in gin and encoding/json is reduced to present, absent, null and type mismatch. Case-insensitive matching of struct keys, duplicate keys and numbers with a fraction or exponent are not modelled: JSON numbers are integers here.
- RequestApi.GetSpotifyMetadata: the floating-point `delay` and `timeout` defaults (1 and 300 seconds) and the delay passed to the back end are not modelled; only whether those fields decode is.
- The back-end calls (Spotify, SongLink, analysis, download progress and queue) and their 500 replies: each handler ends by returning the call it would make.
- The download queue, history, FFmpeg, defaults and health endpoints in handler.go: their logic lives in a back-end package that is not part of this model.
- The HTTP response bodies: replies are datatypes (`SaveReply`, `RequestError`).
- `HandleWebSocket`: the upgrade, the read loop and the "connected" greeting are socket I/O. Its per-message step is `HandleClientMessage`.
- `Start` and `InitWebSocketManager`: the goroutines become the steps `DeliverNext` and `PollUpdates`.
- The RWMutex. In the real code `removeClient` takes the write lock while the broadcast loop holds the read lock (websocket.go:49, 55), which deadlocks on the first failed write. A sequential model cannot show this.
- WsServer.BroadcastMessage: a `json.Marshal` failure is not modelled, because the data is a JSON value and always marshals.
- The base64 text of a marshalled message is the `encoded` parameter of `BroadcastMessage`, because json.Marshal and base64 are not modelled; `Wire` states only the JSON shape a client parses.
- The client's `JSON.parse` failure, logging, `onerror`, the WebSocket URL and the `EventsOn`/`EventsOff` wrappers (websocket.ts:191-197), which only delegate to `On`/`Off`.
- Socket events of a socket the client has already replaced are not told apart from events of the current socket.
- The CLI's printing, `log.Fatalf` and the `config.Save` call after a set (main.go:228-246): these are process glue around `setConfigValue`.

## Findings

| source | as written | input that shows it | evidently intended | confidence | as-written member | corrected member |
|---|---|---|---|---|---|---|
| server/api/handler.go:252-331 | SaveSettings merges into the configuration `config.Get()` returns, which is the published one, and validates only afterwards in `config.Save` | a valid published configuration and the body `{"themeMode": "bogus"}`: the reply is 500, yet the published configuration now has theme mode "bogus" (`RejectedSaveLeavesInvalidConfig`) | a rejected save leaves the published configuration as it was, so it stays valid | high; not executed | SettingsApi.SaveSettings | SettingsApi.SaveSettingsAtomic |
| cmd/cli/main.go:319-337 | setConfigValue reads the second key segment without checking that it exists, for the download and services sections | `config set download x`: the index is out of range and the command panics (`SectionOnlyKeyPanics`) | an "unknown config key" error, as getConfigValue's length check does for reads | high; not executed | CliConfig.SetConfigValue | CliConfig.SetConfigValueGuarded |
| server/api/websocket.go:225-230 | BroadcastMessage queues the `[]byte` from `json.Marshal`; WriteJSON marshals it again, and encoding/json writes a byte slice as a base64 string | `BroadcastMessage("x", data)`: clients receive a JSON string with no `type`, so no handler runs (`MarshalledNeverDispatched`) | clients receive the object `{type, data}` and dispatch it under its type | high; not executed | WsServer.BroadcastMessage | WsServer.BroadcastEnvelope |
| frontend/src/api/websocket.ts:165-177 | close() clears the timer and closes the socket but leaves the socket's `onclose` listener attached, and that listener calls scheduleReconnect (58-61) | a connected client with attempts left: `close()` and then the socket's close event leave a reconnect timer pending, so the client reconnects (`CloseThenCloseEvent`) | after `close()` the client stays closed and schedules nothing | high; not executed | WsClient.WebSocketClient.Close | WsClient.WebSocketClient.CloseDetached |
