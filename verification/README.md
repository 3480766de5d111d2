# A verified model of the home-server dashboard's alert engine and the voice app

This project models three pieces of a small self-hosting kit in Dafny and
proves what they promise.

- **The dashboard's alert engine** (`AlertSystem`, dashboard/alerts.js).
  - The alert configuration: built-in defaults, overlaid by a user document
    with a two-level merge.
  - A per-type cooldown rate limiter keyed by the last send instant.
  - The five checks of `checkAlerts` (docker, cloudflare, tailscale,
    storage, backup), run in that order.
  - A buffer of current alerts capped at 50 and a history capped at 1000.
  - Acknowledgement by id, the active-alert filter, the history tail,
    clearing and reconfiguration.

  `AlertSystem` is a class with `seq` and `map` fields. Each method is
  proved against a specification function. The properties are proved about
  those functions.
- **The dashboard server's transforms** (dashboard/server.js), with the
  file and process I/O stripped away:
  - the capped metrics history written by `logToHistory`;
  - the log tail of `/api/logs` and the history tail of `/api/history`;
  - the mapping from a child process's exit to the docker, cloudflare and
    tailscale status records;
  - the metrics fallback.
- **The voice app** (`VibeVoiceApp`, app/app.py):
  - the configuration, with its fallback to built-in defaults;
  - the lazy model loader (`is_loaded`, `model`, `tokenizer`);
  - the speech request path and its gatekeeping;
  - the status line;
  - the numbered usage guidelines;
  - the command-line overrides.

  Loading a model or tokenizer is an oracle that either yields a handle or
  fails. Tokenizing is an oracle that returns or raises. The rendered audio
  is an opaque buffer, or the message its rendering raised with.

Files:

- `options.dfy`: `Option` and `Result`.
- `text.dfy`: decimal rendering and parsing, JavaScript and Python whitespace, `trim`, `split`/join, `toFixed(1)`.
- `seqs.dfy`: `slice` from the end, newest-n, `reverse`.
- `json.dfy`: JSON values, JavaScript truthiness and `ToNumber`, property access.
- `alert_config.dfy`: defaults, `mergeConfig`, `loadConfig`.
- `alerts.dfy`: the alert engine and the `AlertSystem` class.
- `server.dfy`: the dashboard server transforms.
- `app.dfy`: the voice app and the `VibeVoiceApp` class.

Conventions and choices:

- **Time is a parameter.**
  - `now` is the instant, in milliseconds, that every `Date.now()` of one `checkAlerts` call reads.
  - Timestamps are that instant, not ISO strings.
- **JSON numbers are exact reals.** So `(now - last) / 1000 > cooldown` and `storage_used_gb / 10 * 100 >= threshold` are exact comparisons. NaN is `None`, and every comparison with it is false.
- **`!lastAlert` is also true for a recorded instant 0.** So a send recorded at instant 0 counts as no send.
- **`cooldown || 300` replaces every falsy cooldown by 300.** That includes a missing, zero, `null`, `false` or empty-string cooldown. A negative cooldown is kept as given.
- **A `null` metrics record makes `checkAlerts` throw at the first block that reads it.** That is the storage block when storage alerts are enabled, otherwise the backup block when backup alerts are enabled. The instants recorded by earlier blocks stay recorded, and nothing is sent (`Alerts.Check`, `threw`).
- **`getAlertHistory(limit)` is `slice(-limit)`.** A limit of 0 returns the whole history, because `-0` is `0`. A negative limit drops a prefix.
- **A failed `load_model` does not always leave the state unchanged.**
  - The code assigns `self.model` before it loads the tokenizer. When only the tokenizer fails, the model stays set while `is_loaded` stays false.
  - The model follows the code, so `VoiceApp.Load` states exactly this.
  - A later request still retries, and `is_loaded` is still monotone.
- **The health statuses are inputs.** In the server, `getHealth` hands `checkAlerts` unresolved promises. The model takes the three status strings as inputs instead of reproducing that wiring.

## Model

| member | source | states |
|---|---|---|
| AlertConfig.DefaultConfig | dashboard/alerts.js:14-27 | the built-in configuration has settings for each of the five alert types `checkAlerts` dereferences |
| AlertConfig.Spread | dashboard/alerts.js:48 | an object spread adds exactly the user object's own keys to the default keys |
| AlertConfig.Overlay | dashboard/alerts.js:45-51 | a merged section has exactly the keys of the default section |
| AlertConfig.MergeConfig | dashboard/alerts.js:41-63 | the merge fails (TypeError) exactly when the user document is null; otherwise both sections keep exactly the default keys, so user keys absent from the defaults are ignored |
| AlertConfig.MergeFieldValues | dashboard/alerts.js:44-51 | for a known alert type the merged fields are the default fields plus the user's; a user field wins, every other default field survives |
| AlertConfig.MergeNotificationFieldValues | dashboard/alerts.js:53-60 | the same field-level law for notification channels |
| AlertConfig.OverlayIdempotent | dashboard/alerts.js:45-51 | overlaying the same user section twice equals overlaying it once |
| AlertConfig.MergeIdempotent | dashboard/alerts.js:266-269 | applying `updateConfig` twice with the same document gives the same configuration as once |
| AlertConfig.LoadAlertConfig | dashboard/alerts.js:12-39 | a missing or unreadable file, or a null document (the merge throws), gives the defaults; any other parsed document is merged into the defaults (the corrected merge); the result always has exactly the default alert types |
| AlertConfig.OverlayAsWritten | dashboard/alerts.js:45-50 | the section merge as written keeps every default key (and may add inherited names) |
| AlertConfig.MergeConfigAsWritten | dashboard/alerts.js:41-63 | the merge as written fails exactly on a null user document |
| AlertConfig.AsWrittenAdmitsInheritedKey | dashboard/alerts.js:47-48 | a user document naming an alert type `constructor` adds that type to the merge as written |
| AlertConfig.AsWrittenAgreesOffInheritedNames | dashboard/alerts.js:41-63 | when neither an inherited name nor `__proto__` is named by the user document, the merge as written equals the intended merge |
| Alerts.CreateAlert | dashboard/alerts.js:125-134 | the alert carries the given type, message and severity, is unacknowledged, is stamped `now`, and its id is the type, an underscore, then the instant |
| Alerts.AlertIdsDifferAcrossTime | dashboard/alerts.js:127 | alerts of one type created at different instants have different ids |
| Alerts.Setting | dashboard/alerts.js:138 | `config.alerts[type]?.[name]` is defined exactly when both keys are present |
| Alerts.Cooldown | dashboard/alerts.js:138 | a falsy cooldown setting gives 300 seconds; the cooldown is NaN only for a truthy setting that is not a number |
| Alerts.ShouldSendAlert | dashboard/alerts.js:136-143 | a type without a (truthy) record may always be sent; a recorded type with a NaN cooldown never |
| Alerts.CooldownFallsBack | dashboard/alerts.js:138 | a falsy cooldown is replaced by 300 seconds, any other number is used as given |
| Alerts.DefaultCooldowns | dashboard/alerts.js:15-21 | under the defaults the cooldowns are 300, 300, 300, 300 (storage has none) and 600 seconds |
| Alerts.ShouldSendAlertMeaning | dashboard/alerts.js:136-143 | a type never sent may be sent; otherwise sending is allowed iff strictly more than the cooldown has elapsed |
| Alerts.SendStaysAllowed | dashboard/alerts.js:142 | once sending is allowed, it stays allowed at every later instant |
| Alerts.SuppressedDuringCooldown | dashboard/alerts.js:136-143 | right after a send, the type is suppressed until strictly more than its cooldown has passed, and always at the same instant |
| Alerts.Reach | dashboard/alerts.js:97-109 | at least the three service blocks run before a null metrics record can throw |
| Alerts.Check | dashboard/alerts.js:65-115 | an evaluation throws only on a null metrics record |
| Alerts.StampRecords | dashboard/alerts.js:74-113 | after the sends, the types sent carry `now`, every other type keeps its record, and no other type gains one |
| Alerts.RaiseSound | dashboard/alerts.js:70-76 | one block keeps the evaluation sound: ranks increase, every chosen alert is enabled, allowed, fresh and stamped, and records are stamped |
| Alerts.RaiseKinds | dashboard/alerts.js:70-76 | one block adds its type exactly when it fires and is not cooling down |
| Alerts.RunSound | dashboard/alerts.js:69-115 | running blocks in order keeps the evaluation sound, never throws, and chooses exactly the types that fired and were allowed |
| Alerts.FiredPlan | dashboard/alerts.js:69-115 | among the first n blocks, a type fires and is allowed iff its rank is below n, its condition holds and it is not cooling down |
| Alerts.CheckSound | dashboard/alerts.js:65-123 | no alert of a disabled or cooling-down type; every alert created now and unacknowledged; fixed type order; `lastAlerts[T] := now` exactly for the types sent, all other records unchanged |
| Alerts.CheckDecides | dashboard/alerts.js:65-115 | a type is alerted iff its block runs before any throw, its condition holds and it is not cooling down; the call throws iff metrics is null and storage or backup alerts are enabled |
| Alerts.CheckTypesDistinct | dashboard/alerts.js:67-122 | each type appears at most once among the alerts of one call |
| Alerts.Pushed | dashboard/alerts.js:148-158 | a push never grows a buffer past its cap, and the pushed element is last |
| Alerts.PushAll | dashboard/alerts.js:117-120 | pushing in order never grows a buffer past its cap, and the last element pushed is last |
| Alerts.PushAllKeepsNewest | dashboard/alerts.js:148-158 | pushing with drop-oldest keeps exactly the newest `cap` elements, oldest first |
| Alerts.PushedKeepsNewest | dashboard/alerts.js:149-152 | one push: the new element is last, the length grows up to the cap, and the kept prefix is the newest older elements |
| Alerts.Unacknowledged | dashboard/alerts.js:240 | the filter returns only unacknowledged alerts |
| Alerts.UnacknowledgedMembers | dashboard/alerts.js:240 | an alert is in the filter's result iff it is in the buffer and unacknowledged |
| Alerts.UnacknowledgedAppend | dashboard/alerts.js:240 | the filter keeps buffer order: it distributes over concatenation |
| Alerts.FindById | dashboard/alerts.js:248 | the position found holds the id, and no earlier alert has it |
| Alerts.FindByIdIsFirst | dashboard/alerts.js:248 | the first position holding the id is the one `find` returns |
| Alerts.AcknowledgeFirst | dashboard/alerts.js:249-251 | only the first alert with the id is marked; length, order and all other alerts are unchanged |
| Alerts.AlertSystem.constructor | dashboard/alerts.js:5-10 | empty buffers and records, the configuration `loadConfig` yields (with the corrected merge) |
| Alerts.AlertSystem.Consider | dashboard/alerts.js:70-76 | one block on the live state equals `Raise` |
| Alerts.AlertSystem.CheckServices | dashboard/alerts.js:69-94 | the three service blocks equal the first three steps of `Run` |
| Alerts.AlertSystem.Evaluate | dashboard/alerts.js:65-115 | the chosen alerts, the new `lastAlerts` and the throw equal `Check` |
| Alerts.AlertSystem.SendAll | dashboard/alerts.js:117-120 | sending in order leaves both buffers equal to `PushAll` of the alerts, and keeps the caps |
| Alerts.AlertSystem.CheckAlerts | dashboard/alerts.js:65-123 | returns and sends exactly `Check`'s alerts, records exactly `Check`'s instants, and sends nothing when it throws |
| Alerts.AlertSystem.SendAlert | dashboard/alerts.js:145-158 | appends to both buffers, dropping the oldest entry past 50 and 1000; records and configuration unchanged |
| Alerts.AlertSystem.GetActiveAlerts | dashboard/alerts.js:239-241 | exactly the unacknowledged alerts of the buffer, in buffer order |
| Alerts.AlertSystem.GetAlertHistory | dashboard/alerts.js:243-245 | the last `min(limit, n)` entries for a positive limit; the whole history for 0; a dropped prefix for a negative limit |
| Alerts.AlertSystem.AcknowledgeAlert | dashboard/alerts.js:247-254 | true iff some alert has the id; only the first match is marked; history, records and configuration untouched |
| Alerts.AlertSystem.ClearAlerts | dashboard/alerts.js:256-259 | current alerts and records emptied, history kept |
| Alerts.AlertSystem.UpdateConfig | dashboard/alerts.js:266-269 | the configuration becomes the corrected merge with the new document, unchanged when the merge throws; buffers untouched |
| Text.DecimalRoundTrip | dashboard/alerts.js:127 | the decimal rendering used in ids and numbering reads back exactly |
| Text.TrimShape | dashboard/server.js:58 | `line.trim()` is empty exactly when the line is all whitespace |
| Text.JoinSplit | dashboard/server.js:57 | joining the pieces of `split('\n')` gives back the text |
| Text.SplitJoin | dashboard/server.js:196 | splitting a join of newline-free pieces gives back the pieces |
| Text.SplitAppendPiece | dashboard/server.js:57 | a text followed by a newline and a newline-free line splits into the text's lines plus that line |
| Text.Fixed1 | dashboard/alerts.js:100 | `toFixed(1)` has one digit after the point and a sign exactly for negative values |
| Seqs.SliceFromEnd | dashboard/alerts.js:244 | `slice(-n)` is the newest n for a positive n, everything for 0, a dropped prefix for a negative n |
| Seqs.Reverse | dashboard/server.js:60 | element i of the reversal is element n-1-i |
| JsonValue.OptionalFirst | dashboard/server.js:254 | `?.[0]` is defined only on an array, a string or an object; on a non-empty array it is the first item, on a non-empty string its first character as a one-character string, on an object the property "0"; an empty array or string gives undefined |
| Dashboard.LogToHistory | dashboard/server.js:134-158 | the list written is the newest 1000 of the prior history plus the new record; nothing is written when reading throws or the file is not an array |
| Dashboard.AppendCappedShape | dashboard/server.js:147-152 | the new entry is last, the length is `min(old+1, 1000)`, and the kept prefix is the newest older entries in order |
| Dashboard.NonBlankLines | dashboard/server.js:58 | exactly the lines whose trim is non-empty |
| Dashboard.NonBlankLinesAppend | dashboard/server.js:58 | the filter keeps log order |
| Dashboard.NewestReversed | dashboard/server.js:59-60 | the newest n elements, newest first |
| Dashboard.LogTail | dashboard/server.js:54-65 | an unreadable log gives the single line `No logs available`; a readable one gives at most 100 lines |
| Dashboard.LogTailShape | dashboard/server.js:54-65 | at most 100 lines, the last 100 non-blank lines in reverse order, none blank, none containing a newline |
| Dashboard.LogTailNewestFirst | dashboard/server.js:56-60 | a line appended to the log comes first in the tail |
| Dashboard.HistoryEndpoint | dashboard/server.js:81-88 | the last `min(100, n)` points of an array document, in order (a string document is sliced alike); `[]` when the read or `slice` throws |
| Dashboard.HistoryServesNewest | dashboard/server.js:84 | after `logToHistory`, the endpoint serves the newest 100 entries, the new one last |
| Dashboard.OutputLines | dashboard/server.js:196 | the lines of trimmed output are non-empty and newline-free |
| Dashboard.NonEmpty | dashboard/server.js:196 | `filter(Boolean)` keeps exactly the non-empty strings |
| Dashboard.OutputLinesEmpty | dashboard/server.js:224 | output has no lines iff it is all whitespace |
| Dashboard.OutputLinesRoundTrip | dashboard/server.js:196 | one word per line is read back word for word |
| Dashboard.CheckDocker | dashboard/server.js:193-207 | `running` iff exit code 0, `error` iff the spawn failed, and otherwise `stopped` (the status is one of the three); containers are the output lines |
| Dashboard.ContainersListed | dashboard/server.js:196 | the containers reported are the names `docker ps` printed |
| Dashboard.CheckCloudflare | dashboard/server.js:221-235 | `running` iff exit code 0, `error` with 0 tunnels iff the spawn failed, and otherwise `stopped` (the status is one of the three); when the process closed, the tunnel count is the number of non-empty lines of the trimmed output |
| Dashboard.TunnelCount | dashboard/server.js:224 | the tunnel count is 0 iff the output is blank, and one per process id printed |
| Dashboard.TailscaleIp | dashboard/server.js:254 | the first of `Self.TailscaleIPs` when it is truthy, `unknown` otherwise; always truthy |
| Dashboard.CheckTailscale | dashboard/server.js:248-279 | `running` iff exit 0 and `BackendState` is `Running`; `error` iff the spawn failed or the parse (or reading a null document) throws; on a parsed non-null document the address is `TailscaleIp`, `unknown` everywhere else |
| Dashboard.TailscaleReportsFirstAddress | dashboard/server.js:250-256 | a parsed status reports its first own address |
| Dashboard.GetMetrics | dashboard/server.js:161-172 | the parsed metrics, or the fixed fallback record |
| Dashboard.FallbackRaisesNoMetricsAlert | dashboard/server.js:165-170 | with a positive storage threshold, the fallback record raises neither the storage nor the backup alert, and `checkAlerts` does not throw on it |
| Dashboard.AlertsEndpoint | dashboard/server.js:68-73 | the active alerts, exactly the unacknowledged ones in buffer order, and the last 20 history entries |
| VoiceApp.DefaultAppConfig | app/app.py:60-81 | the defaults hold model path `microsoft/VibeVoice-1.5B` and 10 inference steps |
| VoiceApp.SetupConfig | scripts/setup_vibevoice.py:130-153 | the document the setup script writes holds the given model path and step count |
| VoiceApp.LoadConfig | app/app.py:49-58 | the defaults only when the file is missing; any other error propagates; a parsed document is used as is |
| VoiceApp.DefaultsMatchSetup | scripts/setup_vibevoice.py:130-153 | the app's own default document (app/app.py:60-81) equals the file the setup script writes with its default arguments, so a fresh install behaves as a missing file |
| VoiceApp.ModelPath | app/app.py:89 | `config['model_path']` is defined iff the configuration is an object with that key |
| VoiceApp.Load | app/app.py:83-107 | idempotent once loaded; returns `is_loaded`; succeeds iff the path is present and both fetches succeed, storing both fetched handles; a missing path or failed weights fetch changes nothing; a failed tokenizer fetch leaves only the fetched weights assigned |
| VoiceApp.LoadMonotone | app/app.py:83-107 | once loaded nothing changes; a failed load is retried and succeeds when both fetches do |
| VoiceApp.Synthesize | app/app.py:115-146 | audio iff tokenizing and rendering succeed, with the success message; otherwise `Generation error:` followed by the message of whichever step raised |
| VoiceApp.Generate | app/app.py:109-146 | from an unloaded state the new state is exactly `Load`'s; the not-loaded message with no audio when that fails; otherwise the synthesis with the loaded tokenizer; a loaded state is kept |
| VoiceApp.Respond | app/app.py:260-274 | blank text gets the warning and leaves the state untouched; otherwise the generation's message, with a `temp_output_<stamp>.wav` path iff there is audio |
| VoiceApp.UpdateStatus | app/app.py:251-258 | the three-way status: blank warning, then no-voice notice, then the ready message naming the step count |
| VoiceApp.StatusAgreesWithResponse | app/app.py:251-263 | status and reply agree on blank text, and different step counts give different ready messages |
| VoiceApp.ReadyMessagesDiffer | app/app.py:258 | ready messages for different step counts differ |
| VoiceApp.Enumerated | app/app.py:158 | `enumerate` of a list of strings yields its items, of a string its characters; other values are not enumerated as strings |
| VoiceApp.UsagePolicy | app/app.py:150-158 | a missing section fails; a policy holds exactly the section's `disclaimer` string and the items of its `guidelines` list (or the characters of a `guidelines` string); it exists whenever those are present and enumerable |
| VoiceApp.NumberedListLines | app/app.py:158-159 | the guideline lines read back as `1. g1`, `2. g2`, … in list order |
| VoiceApp.GuidelinesText | app/app.py:148-172 | the text starts with the header holding the disclaimer and ends with the legal notice |
| VoiceApp.WriteGuidelines | app/app.py:158-159 | the loop appending one numbered line per guideline builds exactly `GuidelinesText` |
| VoiceApp.ApplyOverrides | app/app.py:329-333 | truthy overrides replace `model_path` and `inference_steps`, falsy ones (empty path, 0 steps) are ignored, other fields stay; assignment into a non-object raises |
| VoiceApp.OverridesMatchSetup | app/app.py:329-333 | overriding the defaults gives the setup script's document for the same values |
| VoiceApp.VibeVoiceApp.constructor | app/app.py:39-45 | the configuration given, nothing loaded |
| VoiceApp.VibeVoiceApp.LoadModel | app/app.py:83-107 | the new state and result equal `Load`; `is_loaded` never goes back to false |
| VoiceApp.VibeVoiceApp.GenerateSpeech | app/app.py:109-146 | state, audio and message equal `Generate`; a loaded state is never reloaded |
| VoiceApp.VibeVoiceApp.OnGenerate | app/app.py:260-274 | equals `Respond`; blank text changes nothing |
| VoiceApp.VibeVoiceApp.CreateUsageGuidelines | app/app.py:148-172 | the text built line by line is header, numbered list and footer; the lookup error otherwise |
| VoiceApp.VibeVoiceApp.OverrideConfig | app/app.py:329-333 | the configuration becomes `ApplyOverrides`' result, unchanged when that raises |
| VoiceApp.NewApp | app/app.py:39-58 | an app exactly when the configuration loads, holding it and not loaded |

## Left out

- Notification delivery: the Slack, webhook and email senders of `sendAlert` are network I/O (dashboard/alerts.js:160-237). The log line of `sendAlert` is left out too.
- Configuration file I/O: `saveConfig`, and the reading in `loadConfig`. The read's outcome is a `FileRead` parameter.
- AlertConfig.OverlayAsWritten: a `__proto__` key in a user section re-parents the merged section, so later keys that its value defines also pass the guard; which keys are admitted then depends on key order, which the map model of a section does not keep. AlertConfig.AsWrittenAgreesOffInheritedNames therefore requires that neither section names `__proto__`.
- AlertConfig.Spread: spreading a string or an array copies its indices as keys in JavaScript. The model adds nothing for them.
- JsonValue.ToNumber: a non-blank string other than a signed decimal integer is NaN here. JavaScript also reads fractions, exponents and hexadecimal. The same goes for an array of one element, which is NaN here.
- Text.Fixed1: rounds the exact value half up. JavaScript rounds the nearest binary double, and uses exponent notation from 10^21 on.
- Alerts.AlertSystem.CheckAlerts: `checkAlerts` returns the same alert objects it stores. Acknowledging one later is visible through the returned array. The model returns values, so that aliasing is not captured.
- `createAlert`'s ISO timestamp is the instant itself, and all clock reads of one call give the same instant.
- `getHealth`'s promise wiring, the Express routes, the WebSocket timers and `spawn` are left out. The outcome of a child process is a `ProcessOutcome` parameter, and a parse result is an `Option<Json>` parameter.
- The timestamps in the metrics fallback and the history record are a `stamp` parameter.
- The demo audio in `generate_speech`: the sine tone and the WAV encoding are floating point and a foreign library. Rendering is an opaque `Rendering` parameter, and the tokenizer's output is not used.
- VoiceApp.UsagePolicy: a disclaimer or a guideline that is not a string is reported as an error. Python would format it with `str()`.
- VoiceApp.Enumerated: a `guidelines` object is reported as an error. Python would enumerate its keys in insertion order, which a JSON map here does not keep.
- JsonValue.OptionalFirst and Dashboard.HistoryEndpoint: a string is indexed and sliced by Unicode scalar values. JavaScript counts UTF-16 code units, so the two differ on characters outside the Basic Multilingual Plane.
- AlertConfig.LoadAlertConfig, Alerts.AlertSystem.constructor and Alerts.AlertSystem.UpdateConfig: use the corrected merge (`AlertConfig.MergeConfig`), not the guard as written, which also admits inherited names (see Findings).
- VoiceApp.UpdateStatus: the step count is an integer. The source formats whatever number the slider gives.
- The temporary file write in `on_generate`, the Gradio layout (`create_ui`) and `launch` are UI and file I/O.
- Logging throughout is left out.
- The rest of scripts/setup_vibevoice.py (package installation, cloning, directory creation) is not part of this model. Only the configuration document it writes is modelled.

## Findings

| source | as written | input that shows it | evidently intended | confidence | as-written member | corrected member |
|---|---|---|---|---|---|---|
| dashboard/alerts.js:47-48 | `if (merged.alerts[key])` also passes for names every object inherits, such as `constructor`, so the merge adds that key as a new alert type; a `__proto__` key re-parents the merged section, so later keys its value defines pass the guard too | `{"alerts": {"constructor": {"enabled": true}}}` | only keys the defaults define are overlaid; the merged keys are exactly the default keys | not executed | AlertConfig.AsWrittenAdmitsInheritedKey | AlertConfig.MergeConfig |
