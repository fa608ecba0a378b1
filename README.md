# FXRunner: the FXServer supervisor of txAdmin, modelled in Dafny

txAdmin runs one FXServer (the game server of the FiveM / RedM platform) as
a child process. Its `FXRunner` component builds the launch invocation,
spawns the child, sends console commands to its stdin, kills and restarts
it, and keeps a history of lifecycle records: one per spawned instance, with
start, kill, exit and close timestamps. The status label and the uptime
shown to admins are computed from the last record.

This project models that component and proves properties of the model. It
has six modules:

- `Wrappers` (`wrappers.dfy`): `Option` and `Result`.
- `Text` (`text.dfy`): the JavaScript string behaviour the runner relies on.
  This covers decimal rendering of numbers in template literals,
  `Array.prototype.join`, `String.prototype.includes` and the ANSI
  colour-code stripping of `srvCmdBuffer`.
- `Commands` (`commands.dfy`): `escape` and `formatCommand`. There is also a
  reader for quoted argument lists, used to state what the escaping
  guarantees: within one console line, no parameter can break out of its
  quotes. Line breaks are not escaped, so a parameter without one keeps its
  command on a single line (`CommandLineSingleLine`), and a kick message with
  one splits the `quit` line (`LineBreakEndsQuitEarly`).
- `Invocation` (`invocation.dfy`): `setupVariables`, the `interface:port`
  host strings, and the effect of later `+set` triples overriding earlier
  ones.
- `Ledger` (`ledger.dfy`): the history records, the stamping done by the
  event handlers, `getStatus` and `getUptime`.
- `Supervisor` (`supervisor.dfy`): the class `FXRunner`.
  - The class keeps the source's fields, and its methods update them in
    place.
  - Each lifecycle method promises that its result and new state are a step
    function (`SpawnStep`, `KillStep`, `RestartStep`) applied to the old
    state.
  - Lemmas about those functions state the outcomes, the effects and the
    invariant `Consistent`: a live child is the one the last record
    describes.
  - `SpawnScenario` and `KillScenario` are caller-side usage examples. They
    drive a runner through a spawn, a refused second spawn, a kill and the
    two termination events.

The environment is passed in as values.
- The outcome of reading the cfg file, of looking up the endpoint port, of
  launching the child, of writing to its stdin and of `kill()` are inputs.
- So are the clock reading (`now`), the tokens the shell-like tokenizer
  makes of the extra command line, and the resolved installation root.
- `process.exit` is the result `HostExit`.
- Timestamps are whole seconds. The unset value `false` is 0, and the
  source's truthiness tests become tests against 0.

Four behaviours of the code are easy to misread. The model reproduces
each of them as written:

- User arguments come after txAdmin's. The extra command-line arguments are
  placed after txAdmin's own `+set` block at
  `src/components/fxRunner/index.js:71-81`. So a user's `+set` of a txAdmin
  convar overrides txAdmin's value (`ExtraArgsOverrideTxAdmin`). Among the
  command-line arguments only `onesync` and the final `+exec` are
  protected, because they come last (`OnesyncAlwaysConfigured`); the cfg
  file that `+exec` runs may set any convar again.
- Exit and close stamps can be overwritten. The exit and close handlers
  overwrite their timestamp every time they run
  (`src/components/fxRunner/index.js:216,228`): the last delivery wins
  (`StampOverwrites`). Distinct fields still commute (`StampsCommute`).
  The kill stamp, by contrast, is written at most once per record:
  `killServer` stamps only while a child is live and drops the child in
  the same branch (lines 314-317), and a live child only comes back with a
  new record. The invariant `Consistent` carries this (`KillEffects`).
- "spawn ready" is never returned. The doc comment of `getStatus`
  (`src/components/fxRunner/index.js:374-383`) lists it as a state. But in
  the no-start branch the filter iterates over the previous record's keys
  while testing the current record's fields, and the current record's
  `start` is unset there. So the pending list always contains `start`
  (`SpawnReadyUnreachable`, `SpawnAwaitingListsStart`,
  `SpawnReadyTextNeverShown`).
- The delay override starts unset. The constructor's
  `this.restartDelayOverride == false` is a comparison, not an assignment.
  The override therefore starts out unset, modelled as 0, and the
  configured delay is used (`RestartDelay`).

## Model

| member | source | states |
|---|---|---|
| Text.NatToString | src/components/fxRunner/index.js:191 | the decimal text of a number is non-empty and made of digits only |
| Text.DecimalRoundTrip | src/components/fxRunner/index.js:191 | reading the decimal text of a number back gives the number |
| Text.Join | src/components/fxRunner/index.js:17 | joining no strings gives "", one string gives itself, and the first element is a prefix of the result |
| Text.JoinAvoids | src/components/fxRunner/index.js:17 | a character in neither the separator nor any element is not in the joined text |
| Text.Contains | src/components/fxRunner/index.js:145 | `includes` holds for a prefix and only when the substring fits in the text |
| Text.ContainsAt | src/components/fxRunner/index.js:145 | a message holding the substring at any position satisfies `includes` |
| Text.ContainsIff | src/components/fxRunner/index.js:145 | `includes` holds exactly when the substring occurs at some position |
| Text.ColourCodeLength | src/components/fxRunner/index.js:368 | a colour-code match starts with ESC `[`, ends with `m`, is at least 4 long and fits in the text |
| Text.StripColours | src/components/fxRunner/index.js:368 | stripping never lengthens the text or adds characters, and text without ESC is unchanged |
| Commands.Escape | src/components/fxRunner/index.js:15 | same length, every `"` replaced by U+FF02 and nothing else changed, no `"` left, identity on text without `"` |
| Commands.EscapeAll | src/components/fxRunner/index.js:17 | each parameter is escaped in place, same count |
| Commands.FormatCommand | src/components/fxRunner/index.js:16-18 | the result starts with the command and is longer; with no parameters it is `cmd ""` |
| Commands.ParseJoined | src/components/fxRunner/index.js:17 | quote-free fields joined by `" "` inside outer quotes read back as exactly those fields |
| Commands.FormatCommandRoundTrip | src/components/fxRunner/index.js:16-18 | for one or more parameters, the formatted text after the command and a space reads back as one field per parameter, each the escaped parameter |
| Commands.FormatCommandVerbatim | src/components/fxRunner/index.js:15-18 | a parameter without `"` arrives verbatim as its field |
| Commands.FormatCommandAvoids | src/components/fxRunner/index.js:15-18 | a character other than the two quotes and the space that is in neither the command nor any parameter is not in the formatted command |
| Invocation.HostString | src/components/fxRunner/index.js:163-165 | the host starts with the forced interface (or 127.0.0.1) and ends with `:` and the decimal port |
| Invocation.ExtraArgs | src/components/fxRunner/index.js:61-64 | the user's tokens exactly when a non-empty command line is set, else none |
| Invocation.HostRoundTrip | src/components/fxRunner/index.js:68-70 | a host string splits at its last `:` into the forced interface (or 127.0.0.1) and the port |
| Invocation.BoolText | src/components/fxRunner/index.js:76 | `toString` of a boolean is "true" exactly when it is true, else "false" |
| Invocation.TxAdminArgs | src/components/fxRunner/index.js:71-77 | the txAdmin block has three tokens per txAdmin convar |
| Invocation.TxAdminArgsTriples | src/components/fxRunner/index.js:71-77 | the block is six triples of a set verb, a txAdmin convar name in order, and its value |
| Invocation.CmdArgs | src/components/fxRunner/index.js:71-81 | the arguments are 18 txAdmin tokens, the user's tokens and 5 more, ending with `+exec` and the cfg path |
| Invocation.CmdArgsLayout | src/components/fxRunner/index.js:71-81 | the arguments are the 18 txAdmin tokens, then the user's tokens at index 18, then the 5-token onesync/exec trailer |
| Invocation.SetupVariables | src/components/fxRunner/index.js:83-104 | spawn variables exist exactly for Linux and Windows |
| Invocation.SetupVariablesLayout | src/components/fxRunner/index.js:84-100 | Windows runs `FXServer.exe` with the arguments; Linux runs the musl loader with the library path, `--` at index 2, the binary and `citizen_dir`, then the arguments |
| Invocation.TrailerDecides | src/components/fxRunner/index.js:79-80 | arguments ending in the trailer give `onesync` the trailer's value |
| Invocation.OnesyncAlwaysConfigured | src/components/fxRunner/index.js:60-100 | whatever the extra command line holds, `onesync` ends with the configured value and the cfg file is executed last |
| Invocation.ExtraArgsOverrideTxAdmin | src/components/fxRunner/index.js:61-81 | a user `+set` of a txAdmin convar at the end of the command line decides that convar's value |
| Ledger.NewRecord | src/components/fxRunner/index.js:194-202 | a new record carries the pid and the start time, and no other field is set |
| Ledger.Stamp | src/components/fxRunner/index.js:228 | stamping writes exactly one field of one record: same length, other records, the pid and the other fields unchanged |
| Ledger.Unset | src/components/fxRunner/index.js:393 | the filter never returns more keys than it was given |
| Ledger.UnsetMembers | src/components/fxRunner/index.js:393 | a key is pending exactly when it is among the keys and its timestamp is unset |
| Ledger.UnsetKeys | src/components/fxRunner/index.js:400 | the unset fields in key order (start, kill, exit, close), written out |
| Ledger.GetStatus | src/components/fxRunner/index.js:385-413 | "not started" with no records; an error exactly for a lone record without start; the pending list of the last record without start; the kill/exit/close priority otherwise |
| Ledger.StatusText | src/components/fxRunner/index.js:386-412 | the "spawn awaiting last: " and "kill pending: " texts start with those prefixes (the one full list text proved is in `Ledger.KillPendingText`) |
| Ledger.GetUptime | src/components/fxRunner/index.js:421-426 | 0 with no records, else now minus the last record's start |
| Ledger.SpawnReadyUnreachable | src/components/fxRunner/index.js:391-396 | "spawn ready" is never the status |
| Ledger.SpawnAwaitingListsStart | src/components/fxRunner/index.js:391-397 | the "spawn awaiting" list always begins with `start` |
| Ledger.SpawnReadyTextNeverShown | src/components/fxRunner/index.js:374-398 | no history's status reads "spawn ready", although the doc comment lists it |
| Ledger.StartedHistoryStatus | src/components/fxRunner/index.js:399-412 | when every record has a start, the status is no error and one of killed, kill pending, closing, closed or spawned |
| Ledger.StatusOfLast | src/components/fxRunner/index.js:385-425 | for two histories of more than one record each, status, and uptime at any clock reading, depend on the last record alone |
| Ledger.SpawnedAfterAppend | src/components/fxRunner/index.js:194-203 | after pushing a new record the status is "spawned" and the uptime counts from its start |
| Ledger.KillLifecycle | src/components/fxRunner/index.js:399-405 | after a kill, "kill pending" lists exit and close, then the one still missing, then "killed" in either delivery order |
| Ledger.ExitCloseLifecycle | src/components/fxRunner/index.js:406-411 | without a kill, exit gives "closing", exit and close give "closed", a close alone stays "spawned" |
| Ledger.StaleEventInvisible | src/components/fxRunner/index.js:214-228 | an event for an earlier record changes neither the status nor the uptime |
| Ledger.StampsCommute | src/components/fxRunner/index.js:216 | stamps of different fields or records commute |
| Ledger.StampOverwrites | src/components/fxRunner/index.js:228 | a repeated stamp of the same field keeps only the last value |
| Ledger.KillPendingText | src/components/fxRunner/index.js:402 | right after a kill the status text is "kill pending: exit, close" |
| Supervisor.ResolvePort | src/components/fxRunner/index.js:151-162 | the cfg file's port, else the forced port, and none exactly when both are missing |
| Supervisor.CommandLineSingleLine | src/components/fxRunner/index.js:338 | a formatted command without line breaks in its name and parameters is written as one line, whose only line break is the last character |
| Supervisor.LineBreakEndsQuitEarly | src/components/fxRunner/index.js:15-18 | a line break at index i of a kick message lands at index 6 + i of the written `quit` line, before its end |
| Supervisor.AfterWrite | src/components/fxRunner/index.js:338 | a write queues the line on the child's stdin unless it threw or there is no child |
| Supervisor.RestartDelay | src/components/fxRunner/index.js:278-283 | the override when set, else the configured delay |
| Supervisor.Prepared | src/components/fxRunner/index.js:116 | `setupVariables` changes only the spawn variables, and sets them for a supported OS with a cfg path |
| Supervisor.SettleStep | src/components/fxRunner/index.js:139-203 | keeps the spawn variables; a refusal is a cfg or port error and changes nothing; only a start changes child and history, appending one record at the returned index |
| Supervisor.SpawnStep | src/components/fxRunner/index.js:114-208 | an unsupported OS ends the host with nothing changed; only a start, which needs no live child, changes child and history, appending one record |
| Supervisor.KillStep | src/components/fxRunner/index.js:314-324 | no child afterwards, the history keeps its length, and only the child and the history change |
| Supervisor.RestartStep | src/components/fxRunner/index.js:276-284 | with nothing running in between, the spawn after the kill is never refused as already started |
| Supervisor.SpawnOutcomes | src/components/fxRunner/index.js:114-208 | a spawn starts exactly when every guard passes and the launch succeeds, indexed by the new record; it ends the host exactly for an unsupported OS or a failed launch; each refusal names the first guard that failed |
| Supervisor.SpawnEffects | src/components/fxRunner/index.js:116-203 | only a start changes child and history, adding exactly the child and its record; a refusal keeps the endpoint; past the guards the endpoint is the resolved port on the interface; the spawn variables are rebuilt when both paths are set |
| Supervisor.SpawnKeepsConsistent | src/components/fxRunner/index.js:114-203 | every spawn outcome keeps a live child described by the last record |
| Supervisor.CfgFileErrorTagged | src/components/fxRunner/index.js:139-150 | a failed cfg read refuses the spawn with its message, tagged unreadable exactly when "unreadable" occurs in it |
| Supervisor.SpawnedServerReports | src/components/fxRunner/index.js:163-203 | after a start the index is the last record's, the status is "spawned", the uptime counts from the start, and the host reads back as interface and port |
| Supervisor.KillEffects | src/components/fxRunner/index.js:314-324 | no child afterwards; false exactly when a live child's kill threw; only a successful kill stamps the last record's kill, which was unset before; nothing else changes |
| Supervisor.KillLeavesEventsPending | src/components/fxRunner/index.js:314-318 | killing a running instance with no events yet reads "kill pending" for exit and close |
| Supervisor.KillAfterWrite | src/components/fxRunner/index.js:309-317 | a quit line written before the kill leaves the kill's result and state unchanged |
| Supervisor.RestartOutcomes | src/components/fxRunner/index.js:276-284 | with nothing running during the waits, a restart is never refused as already started; it starts exactly when paths, cfg, port and launch work out, on top of the killed history |
| Supervisor.FXRunner.constructor | src/components/fxRunner/index.js:22-30 | no child, empty history, no port, host or spawn variables, no delay override, empty command buffer, nothing sent |
| Supervisor.FXRunner.SetupSpawnVariables | src/components/fxRunner/index.js:59-100 | stores the spawn variables of the configured OS, paths and tokens, keeping the runner consistent |
| Supervisor.FXRunner.Spawn | src/components/fxRunner/index.js:114-208 | result and new state are `SpawnStep` of the old state, and the runner stays consistent |
| Supervisor.FXRunner.SettleAndLaunch | src/components/fxRunner/index.js:139-203 | with no live child, result and new state are `SettleStep` of the old state, and the runner stays consistent |
| Supervisor.FXRunner.OnExit | src/components/fxRunner/index.js:225-234 | stamps the exit of its own record and reports whether the run lasted 5 s or less |
| Supervisor.FXRunner.OnClose | src/components/fxRunner/index.js:214-217 | stamps the close of its own record |
| Supervisor.FXRunner.SrvCmd | src/components/fxRunner/index.js:334-347 | true exactly when there is a child and the write succeeded; the line reaches stdin, and the log of sent lines, unless the write threw or there is no child |
| Supervisor.FXRunner.SrvCmdBuffer | src/components/fxRunner/index.js:358-369 | false with no child or a failed send; otherwise capture is reset, and the captured output comes back without colour codes with capture turned off |
| Supervisor.KickLine | src/components/fxRunner/index.js:301-310 | at most one line: the quoted `quit` with the kick message, exactly when there is a reason, a live child and the write did not throw |
| Supervisor.FXRunner.KillServer | src/components/fxRunner/index.js:298-326 | with a reason, the quoted `quit` kick line is sent (`KickLine`) before the kill; result and new state are `KillStep` of the old state |
| Supervisor.FXRunner.RestartServer | src/components/fxRunner/index.js:261-290 | with a reason, the quoted `quit` kick line is sent (`KickLine`) first; the returned delay is `RestartDelay`; result and new state are `RestartStep` of the old state |
| Supervisor.FXRunner.Status | src/components/fxRunner/index.js:385-386 | `getStatus` of the history: "not started" when it is empty |
| Supervisor.FXRunner.Uptime | src/components/fxRunner/index.js:421-422 | `getUptime` of the history: 0 when it is empty |

## Left out

- Process creation and stdio: `spawn`, the stdout/stderr piping into the output handler, the FD3 JSON stream (`StreamValues`) and the `disconnect`/`error` handlers are I/O. The launch outcome is an input, and the child is a pid plus the lines written to its stdin.
- OutputHandler: `src/components/fxRunner/outputHandler.js` is not part of this model. Only the two fields `srvCmdBuffer` drives (`cmdBuffer`, `enableCmdBuffer`) are kept, and the captured output is an input. Their initial values (empty, off) in the constructor are assumed from that class, whose source is not part of this model; `srvCmdBuffer` resets both before using them.
- Helpers: `helpers.resolveCFGFilePath`, `helpers.getCFGFileData` and `helpers.getFXServerPort` are not part of this model. Their outcomes are the inputs `CfgRead` and `PortLookup`.
- Tokenizer and root path: `parseArgsStringToArgv` and `path.resolve` are not part of this model. Their results are inputs.
- Supervisor.ResolvePort: the markup stripping of the port error message (line 154) is not modelled. The raw message is carried in `PortDirectiveError`.
- Timers: `sleep`, `setTimeout` and log output are time and I/O. `RestartServer` returns the delay instead of waiting. `OnExit` returns the "didn't start" condition instead of logging it after 500 ms.
- Other components: the autostart in the constructor (lines 34-42), discord announcements, translator messages, the web console buffer, `monitor.resetMonitorStats` and the verbose logging all call into other components.
- Kick messages: the reason text that `killServer`/`restartServer` turn into a translated kick message is taken as the finished kick message.
- refreshConfig: it only re-reads the config from the config vault, another component. A runner's `config` is fixed once constructed.
- Spawn announcements: the `announce` flag of `spawnServer` only triggers a discord announcement.
- Commands.Escape: only double quotes are replaced (line 15). A parameter holding a line break is sent as it is, and FXServer, reading its stdin a line at a time, runs the text after the break as a separate command. This is the code's behaviour and the model keeps it (`Supervisor.LineBreakEndsQuitEarly`); how FXServer tokenizes a console line beyond splitting it into lines is not part of this model.
- Supervisor.FXRunner.SrvCmd: the `typeof command !== 'string'` throw (also in `srvCmdBuffer`) cannot happen with a typed `string` parameter.
- Supervisor.FXRunner.SrvCmdBuffer: the `bufferTime` wait is not modelled (except as time passing). The captured output is a parameter.
- Supervisor.SpawnStep: the sanity check at lines 121-127 cannot fire after `setupVariables` returned, because an unsupported OS has already ended the host. It is not modelled.
- Supervisor.FXRunner.SetupSpawnVariables: it requires a cfg path, and `Supervisor.Prepared` skips it without one. When `cfgPath` is null the source still calls `setupVariables` (line 116) and rebuilds the spawn variables with null in the `+exec` slot, before refusing the spawn. The model leaves the previous spawn variables in place there.
- Supervisor.Prepared: for the same reason, with a null `cfgPath` it keeps the previous spawn variables, where the source rebuilds them at line 116 with null in the `+exec` slot (the spawn is refused right after, at line 129).
- Supervisor.SettleStep: a child the source assigns before finding it has no pid, just before the host exits, is not recorded in `fxChild`.
- Supervisor.RestartStep: the `catch` of `restartServer` is not modelled. Spawn errors are returned as results, so it fires only when a component that is not part of this model throws (the translator and discord calls at lines 269-272, the monitor and announcement calls at lines 168-173).
- Supervisor.RestartStep: other calls and termination events that can run during the waits of `restartServer` (lines 273, 280, 282), `killServer` (line 310) and `srvCmdBuffer` (line 366) are not modelled, for example the autostart timer (lines 34-42) or an admin's start. Each method runs to completion on its own, so a restart's spawn never meets a live child here, while in the source line 284 can return "The server is already started." (lines 134-136).
- Clock: `now()` rounds milliseconds to seconds with floating point. The clock reading is an input in whole seconds.
- Integers: JavaScript numbers (pids, ports, delays) are unbounded naturals here.
- Invocation.LastSetValue: it models how FXServer applies `+set`/`+sets`/`+setr` triples in order, with the last one winning. FXServer itself is not part of this model.
