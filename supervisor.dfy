/**
 * The `FXRunner` class: it owns at most one FXServer child, spawns it,
 * kills and restarts it, pipes console commands into it, and keeps the
 * spawn history its status is derived from.
 *
 * Everything that comes from outside the class is a parameter of the
 * method that consumes it: the clock (`now`), the outcome of reading the
 * cfg file and of finding its endpoint port, the outcome of
 * `child_process.spawn`, of `kill()` and of `stdin.write`, and the output
 * the server prints while a command's output is being captured. The
 * event handlers that `spawnServer` registers are the methods `OnExit`
 * and `OnClose`, called with the history index the spawn captured.
 *
 * The fields the lifecycle methods change are gathered in the value
 * `Runner`; `SpawnStep`, `KillStep` and `RestartStep` say what the
 * methods do to it, and the lemmas below them say what that means.
 */
module Supervisor {
  import opened Wrappers
  import opened Text
  import opened Commands
  import opened Invocation
  import opened Ledger

  /** The live child: its pid and the lines written to its stdin so far. */
  datatype Child = Child(pid: nat, stdin: seq<string>)

  /** The result of `resolveCFGFilePath` + `getCFGFileData`: the file's text, or the message either threw. */
  datatype CfgRead = CfgText(raw: string) | CfgFailure(message: string)

  /** The result of `getFXServerPort(rawCfgFile)`: the port, or the message it threw. */
  datatype PortLookup = PortFound(port: nat) | PortFailure(message: string)

  /** The result of `child_process.spawn`: a child with a pid, or a throw or a child without a pid. */
  datatype Launch = Launched(pid: nat) | LaunchFailed

  /** What `stdin.write` did: took the line, took it but returned false (buffer full), or threw. */
  datatype WriteOutcome = Written | WrittenOverHighWater | WriteThrew

  datatype SpawnError =
    | MissingConfig
    | AlreadyStarted
    | CfgFileError(message: string, unreadable: bool)
    | PortDirectiveError(message: string)

  /**
   * What `spawnServer` did: started the child (the source returns null;
   * the index is the one its event handlers captured), refused with an
   * error message, or ended the host process (`process.exit`).
   */
  datatype SpawnResult = Started(historyIndex: nat) | Refused(error: SpawnError) | HostExit

  /** The runner's fields that spawning, killing and restarting change. */
  datatype Runner = Runner(
    fxChild: Option<Child>,
    history: History,
    fxServerPort: Option<nat>,
    fxServerHost: Option<string>,
    spawnVariables: Option<SpawnVariables>)

  /**
   * A live child is the one the last record describes, that record has
   * not been stamped as killed, and the launch arguments and endpoint have
   * been settled.
   */
  predicate Consistent(s: Runner) {
    s.fxChild.Some? ==>
      && s.history != []
      && s.history[|s.history| - 1].pid == NatToString(s.fxChild.value.pid)
      && s.history[|s.history| - 1].timestamps.kill == 0
      && s.fxServerPort.Some? && s.fxServerHost.Some? && s.spawnVariables.Some?
  }

  /**
   * The port `spawnServer` settles on: the cfg file's, else the forced
   * port when one is configured (0 stands for unset), else none.
   */
  function ResolvePort(lookup: PortLookup, forceFXServerPort: nat): (r: Option<nat>)
    ensures lookup.PortFound? ==> r == Some(lookup.port)
    ensures lookup.PortFailure? && forceFXServerPort != 0 ==> r == Some(forceFXServerPort)
    ensures r.None? <==> lookup.PortFailure? && forceFXServerPort == 0
  {
    match lookup
    case PortFound(p) => Some(p)
    case PortFailure(_) => if forceFXServerPort != 0 then Some(forceFXServerPort) else None
  }

  /** The line `srvCmd` writes for a command. */
  function CommandLine(command: string): string {
    command + "\n"
  }

  /**
   * FXServer reads its stdin a line at a time. A formatted command whose
   * name and parameters hold no line break is sent as one line: its only
   * line break is the final one.
   */
  lemma CommandLineSingleLine(cmd: string, ps: seq<string>)
    requires '\n' !in cmd && forall i :: 0 <= i < |ps| ==> '\n' !in ps[i]
    ensures var l := CommandLine(FormatCommand(cmd, ps));
            l[|l| - 1] == '\n' && forall j :: 0 <= j < |l| - 1 ==> l[j] != '\n'
  {
    var f := FormatCommand(cmd, ps);
    FormatCommandAvoids(cmd, ps, '\n');
    var l := CommandLine(f);
    forall j | 0 <= j < |l| - 1
      ensures l[j] != '\n'
    {
      assert l[j] == f[j];
    }
  }

  /**
   * `escape` leaves line breaks in place: a kick message holding one ends
   * the `quit` line early, and what follows it reaches the server as a
   * line of its own.
   */
  lemma LineBreakEndsQuitEarly(m: string, i: nat)
    requires i < |m| && m[i] == '\n'
    ensures var l := CommandLine(FormatCommand("quit", [m]));
            6 + i < |l| - 1 && l[6 + i] == '\n'
  {
    var l := CommandLine(FormatCommand("quit", [m]));
    assert Join(EscapeAll([m]), "\" \"") == Escape(m);
    assert l == "quit \"" + Escape(m) + "\"" + "\n";
    assert l[6 + i] == Escape(m)[i];
  }

  /** The child after `stdin.write(line)`: the line is queued unless the write threw. */
  function AfterWrite(child: Option<Child>, line: string, write: WriteOutcome): (r: Option<Child>)
    ensures child.None? || write == WriteThrew ==> r == child
    ensures child.Some? && write != WriteThrew ==>
              r == Some(Child(child.value.pid, child.value.stdin + [line]))
  {
    match child
    case Some(c) => if write == WriteThrew then child else Some(c.(stdin := c.stdin + [line]))
    case None => None
  }

  /** The launch arguments can be built: a supported OS and both paths configured. */
  predicate PathsKnown(g: Globals, config: Config) {
    !g.osType.OtherOs? && config.serverDataPath.Some? && config.cfgPath.Some?
  }

  /** Every guard of `spawnServer` passed and the port is settled, so the child is launched. */
  predicate ReachesLaunch(g: Globals, config: Config, childLive: bool, cfg: CfgRead,
                          lookup: PortLookup, forceFXServerPort: nat)
  {
    PathsKnown(g, config) && !childLive && cfg.CfgText? && ResolvePort(lookup, forceFXServerPort).Some?
  }

  /**
   * The runner after `setupVariables` returned: an unsupported OS never
   * gets this far (the host ends), and without a cfg path the arguments
   * are not rebuilt.
   */
  function Prepared(s: Runner, g: Globals, config: Config, tokens: seq<string>): (r: Runner)
    ensures r.(spawnVariables := s.spawnVariables) == s
    ensures !g.osType.OtherOs? && config.cfgPath.Some? ==> r.spawnVariables.Some?
  {
    if !g.osType.OtherOs? && config.cfgPath.Some?
    then s.(spawnVariables := SetupVariables(g, config, config.cfgPath.value, tokens))
    else s
  }

  /**
   * The end of `spawnServer`, once its guards passed: read the cfg file,
   * settle the port, set the host, launch (a failed launch ends the host)
   * and push the new record.
   */
  function SettleStep(s: Runner, g: Globals, forceFXServerPort: nat,
                      cfg: CfgRead, lookup: PortLookup, launch: Launch, now: nat): (r: (SpawnResult, Runner))
    ensures r.1.spawnVariables == s.spawnVariables
    ensures r.0.Refused? ==> r.1 == s && (r.0.error.CfgFileError? || r.0.error.PortDirectiveError?)
    ensures !r.0.Started? ==> r.1.fxChild == s.fxChild && r.1.history == s.history
    ensures r.0.Started? ==>
              && r.0.historyIndex == |s.history|
              && |r.1.history| == |s.history| + 1 && r.1.history[..|s.history|] == s.history
  {
    var port := ResolvePort(lookup, forceFXServerPort);
    if cfg.CfgFailure? then (Refused(CfgFileError(cfg.message, Contains(cfg.message, "unreadable"))), s)
    else if port.None? then (Refused(PortDirectiveError(lookup.message)), s)
    else
      var settled := s.(fxServerPort := port, fxServerHost := Some(HostString(g.forceInterface, port.value)));
      match launch
      case LaunchFailed => (HostExit, settled)
      case Launched(pid) =>
        (Started(|s.history|),
         settled.(fxChild := Some(Child(pid, [])), history := s.history + [NewRecord(NatToString(pid), now)]))
  }

  /**
   * `spawnServer`, guard by guard in the source's order: build the launch
   * arguments (an unsupported OS ends the host), refuse on missing paths
   * or a live child, then settle and launch.
   */
  function SpawnStep(s: Runner, g: Globals, config: Config, forceFXServerPort: nat, tokens: seq<string>,
                     cfg: CfgRead, lookup: PortLookup, launch: Launch, now: nat): (r: (SpawnResult, Runner))
    ensures g.osType.OtherOs? ==> r == (HostExit, s)
    ensures !r.0.Started? ==> r.1.fxChild == s.fxChild && r.1.history == s.history
    ensures r.0.Started? ==>
              && s.fxChild.None?
              && |r.1.history| == |s.history| + 1 && r.1.history[..|s.history|] == s.history
  {
    var p := Prepared(s, g, config, tokens);
    if g.osType.OtherOs? then (HostExit, s)
    else if config.serverDataPath.None? || config.cfgPath.None? then (Refused(MissingConfig), p)
    else if s.fxChild.Some? then (Refused(AlreadyStarted), p)
    else SettleStep(p, g, forceFXServerPort, cfg, lookup, launch, now)
  }

  /**
   * The kill of `killServer`: a live child is killed, dropped and the
   * last record stamped. When `kill()` throws the child is dropped all the
   * same, nothing is stamped and the result is false. (The `quit` line
   * sent before, when there is a reason, goes to the stdin of the child
   * that is dropped here, so it leaves no trace in the runner.)
   */
  function KillStep(s: Runner, killThrows: bool, now: nat): (r: (bool, Runner))
    requires Consistent(s)
    ensures r.1.fxChild.None? && |r.1.history| == |s.history|
    ensures r.1.(fxChild := s.fxChild, history := s.history) == s
  {
    if s.fxChild.None? then (true, s)
    else if killThrows then (false, s.(fxChild := None))
    else (true, s.(fxChild := None, history := Stamp(s.history, |s.history| - 1, Kill, now)))
  }

  /** The wait between kill and spawn, in milliseconds: the override when set, else the configured delay. */
  function RestartDelay(restartDelayOverride: nat, config: Config): (r: nat)
    ensures restartDelayOverride != 0 ==> r == restartDelayOverride
    ensures restartDelayOverride == 0 ==> r == config.restartDelay
  {
    if restartDelayOverride != 0 then restartDelayOverride else config.restartDelay
  }

  /**
   * `restartServer`: `killServer`, then `spawnServer` on what the kill
   * left, with nothing else running in between.
   */
  function RestartStep(s: Runner, killThrows: bool, killTime: nat,
                       g: Globals, config: Config, forceFXServerPort: nat, tokens: seq<string>,
                       cfg: CfgRead, lookup: PortLookup, launch: Launch, spawnTime: nat): (r: (SpawnResult, Runner))
    requires Consistent(s)
    ensures r.0 != Refused(AlreadyStarted)
  {
    SpawnStep(KillStep(s, killThrows, killTime).1,
              g, config, forceFXServerPort, tokens, cfg, lookup, launch, spawnTime)
  }

  /**
   * The outcomes of `spawnServer`: it starts exactly when every guard
   * passes and the launch succeeds, recording the index of the new
   * record; it ends the host exactly for an unsupported OS or a failed
   * launch; each refusal names the first guard that failed.
   */
  lemma SpawnOutcomes(s: Runner, g: Globals, config: Config, forceFXServerPort: nat, tokens: seq<string>,
                      cfg: CfgRead, lookup: PortLookup, launch: Launch, now: nat)
    ensures var r := SpawnStep(s, g, config, forceFXServerPort, tokens, cfg, lookup, launch, now).0;
            var live := s.fxChild.Some?;
            && (r.Started? <==> ReachesLaunch(g, config, live, cfg, lookup, forceFXServerPort) && launch.Launched?)
            && (r.Started? ==> r.historyIndex == |s.history|)
            && (r == HostExit <==>
                  g.osType.OtherOs? || (ReachesLaunch(g, config, live, cfg, lookup, forceFXServerPort) && launch.LaunchFailed?))
            && (r == Refused(MissingConfig) <==> !g.osType.OtherOs? && !PathsKnown(g, config))
            && (r == Refused(AlreadyStarted) <==> PathsKnown(g, config) && live)
            && (r.Refused? && r.error.CfgFileError? <==> PathsKnown(g, config) && !live && cfg.CfgFailure?)
            && (r.Refused? && r.error.PortDirectiveError? <==>
                  PathsKnown(g, config) && !live && cfg.CfgText? && ResolvePort(lookup, forceFXServerPort).None?)
  {
  }

  /**
   * A spawn that does not start changes neither the child nor the
   * history, and a refused one leaves the endpoint alone; once the
   * guards pass the endpoint is the resolved port on the configured
   * interface; a start adds exactly the new record and the child.
   */
  lemma SpawnEffects(s: Runner, g: Globals, config: Config, forceFXServerPort: nat, tokens: seq<string>,
                     cfg: CfgRead, lookup: PortLookup, launch: Launch, now: nat)
    ensures var (r, t) := SpawnStep(s, g, config, forceFXServerPort, tokens, cfg, lookup, launch, now);
            && (!r.Started? ==> t.fxChild == s.fxChild && t.history == s.history)
            && (r.Refused? ==> t.fxServerPort == s.fxServerPort && t.fxServerHost == s.fxServerHost)
            && (ReachesLaunch(g, config, s.fxChild.Some?, cfg, lookup, forceFXServerPort) ==>
                  && t.fxServerPort == ResolvePort(lookup, forceFXServerPort)
                  && t.fxServerHost == Some(HostString(g.forceInterface, t.fxServerPort.value)))
            && (r.Started? ==>
                  && launch.Launched?
                  && t.fxChild == Some(Child(launch.pid, []))
                  && t.history == s.history + [NewRecord(NatToString(launch.pid), now)])
            && (PathsKnown(g, config) ==> t.spawnVariables == SetupVariables(g, config, config.cfgPath.value, tokens))
  {
  }

  /** Spawning keeps the runner consistent, whatever the outcome. */
  lemma SpawnKeepsConsistent(s: Runner, g: Globals, config: Config, forceFXServerPort: nat, tokens: seq<string>,
                             cfg: CfgRead, lookup: PortLookup, launch: Launch, now: nat)
    requires Consistent(s)
    ensures Consistent(SpawnStep(s, g, config, forceFXServerPort, tokens, cfg, lookup, launch, now).1)
  {
  }

  /**
   * After a start at a non-zero time, the new record is the last one, the
   * status is "spawned", the uptime counts from the start, and the host
   * string reads back as the interface and the settled port.
   */
  lemma SpawnedServerReports(s: Runner, g: Globals, config: Config, forceFXServerPort: nat, tokens: seq<string>,
                             cfg: CfgRead, lookup: PortLookup, launch: Launch, now: nat, later: nat)
    requires now != 0
    requires SpawnStep(s, g, config, forceFXServerPort, tokens, cfg, lookup, launch, now).0.Started?
    ensures var (r, t) := SpawnStep(s, g, config, forceFXServerPort, tokens, cfg, lookup, launch, now);
            && r.historyIndex == |t.history| - 1
            && GetStatus(t.history) == Ok(Spawned)
            && GetUptime(t.history, later) == later - now
            && t.fxServerPort.Some? && t.fxServerHost.Some?
            && ParseHost(t.fxServerHost.value)
               == Some((if g.forceInterface != "" then g.forceInterface else Loopback, t.fxServerPort.value))
  {
    var t := SpawnStep(s, g, config, forceFXServerPort, tokens, cfg, lookup, launch, now).1;
    SpawnEffects(s, g, config, forceFXServerPort, tokens, cfg, lookup, launch, now);
    SpawnedAfterAppend(s.history, NatToString(launch.pid), now, later);
    HostRoundTrip(g.forceInterface, t.fxServerPort.value);
  }

  /**
   * A cfg file that cannot be read refuses the spawn with its message,
   * tagged as unreadable exactly when the message contains "unreadable"
   * somewhere (the case the source adds remediation advice for).
   */
  lemma CfgFileErrorTagged(s: Runner, g: Globals, config: Config, forceFXServerPort: nat, tokens: seq<string>,
                           cfg: CfgRead, lookup: PortLookup, launch: Launch, now: nat)
    requires PathsKnown(g, config) && s.fxChild.None? && cfg.CfgFailure?
    ensures SpawnStep(s, g, config, forceFXServerPort, tokens, cfg, lookup, launch, now).0
            == Refused(CfgFileError(cfg.message, exists i: nat :: OccursAt(cfg.message, "unreadable", i)))
  {
    ContainsIff(cfg.message, "unreadable");
  }

  /**
   * After `killServer` there is no child. It reports failure exactly when
   * a live child's `kill()` threw; only a successful kill stamps, and it
   * stamps the last record's kill field and nothing else. That field was
   * unset before: each record's kill is stamped at most once.
   */
  lemma KillEffects(s: Runner, killThrows: bool, now: nat)
    requires Consistent(s)
    ensures var (ok, t) := KillStep(s, killThrows, now);
            && t.fxChild.None?
            && (ok <==> s.fxChild.None? || !killThrows)
            && t.fxServerPort == s.fxServerPort && t.fxServerHost == s.fxServerHost
            && t.spawnVariables == s.spawnVariables
            && (s.fxChild.None? || killThrows ==> t.history == s.history)
            && (s.fxChild.Some? && !killThrows ==> t.history == Stamp(s.history, |s.history| - 1, Kill, now))
            && (s.fxChild.Some? ==> s.history[|s.history| - 1].timestamps.kill == 0)
            && Consistent(t)
  {
  }

  /**
   * Killing a running instance that has had no event yet reads "kill
   * pending" for both the exit and the close.
   */
  lemma KillLeavesEventsPending(s: Runner, now: nat)
    requires Consistent(s) && s.fxChild.Some? && now != 0
    requires var t := s.history[|s.history| - 1].timestamps; t.start != 0 && t.kill == 0 && t.exit == 0 && t.close == 0
    ensures GetStatus(KillStep(s, false, now).1.history) == Ok(KillPending([Exit, Close]))
  {
    var h := s.history;
    var last := h[|h| - 1].timestamps;
    assert last == Timestamps(last.start, 0, 0, 0);
    KillLifecycle(h, now, 1, 1);
  }

  /** A line written to the child before a kill leaves no trace in what the kill leaves. */
  lemma KillAfterWrite(s: Runner, line: string, write: WriteOutcome, killThrows: bool, now: nat)
    requires Consistent(s)
    ensures Consistent(s.(fxChild := AfterWrite(s.fxChild, line, write)))
    ensures KillStep(s.(fxChild := AfterWrite(s.fxChild, line, write)), killThrows, now) == KillStep(s, killThrows, now)
  {
  }

  /**
   * A restart kills first, so, when nothing else runs during its waits,
   * its spawn never finds a live child: it is never refused as already
   * started, it starts exactly when the paths, the cfg file, the port and
   * the launch all work out, and a start sits on top of the killed history.
   */
  lemma RestartOutcomes(s: Runner, killThrows: bool, killTime: nat,
                        g: Globals, config: Config, forceFXServerPort: nat, tokens: seq<string>,
                        cfg: CfgRead, lookup: PortLookup, launch: Launch, spawnTime: nat)
    requires Consistent(s)
    ensures var (r, t) := RestartStep(s, killThrows, killTime,
                                      g, config, forceFXServerPort, tokens, cfg, lookup, launch, spawnTime);
            var killed := KillStep(s, killThrows, killTime).1;
            && r != Refused(AlreadyStarted)
            && (r.Started? <==>
                  PathsKnown(g, config) && cfg.CfgText? && ResolvePort(lookup, forceFXServerPort).Some? && launch.Launched?)
            && (r.Started? ==> t.history == killed.history + [NewRecord(NatToString(launch.pid), spawnTime)])
            && (!r.Started? ==> t.history == killed.history && t.fxChild.None?)
  {
    var killed := KillStep(s, killThrows, killTime).1;
    KillEffects(s, killThrows, killTime);
    SpawnOutcomes(killed, g, config, forceFXServerPort, tokens, cfg, lookup, launch, spawnTime);
    SpawnEffects(killed, g, config, forceFXServerPort, tokens, cfg, lookup, launch, spawnTime);
  }

  /**
   * The `quit` line a kill or restart with a reason writes before killing:
   * the kick message, quoted, reaches a live child unless the write threw.
   */
  function KickLine(child: Option<Child>, kickMessage: Option<string>, write: WriteOutcome): (r: seq<string>)
    ensures |r| <= 1
    ensures r != [] <==> child.Some? && kickMessage.Some? && write != WriteThrew
    ensures r != [] ==> r[0] == CommandLine(FormatCommand("quit", [kickMessage.value]))
  {
    if child.Some? && kickMessage.Some? && write != WriteThrew
    then [CommandLine(FormatCommand("quit", [kickMessage.value]))]
    else []
  }

  class FXRunner {
    var config: Config
    var fxChild: Option<Child>
    var history: History
    var fxServerPort: Option<nat>
    var fxServerHost: Option<string>
    var spawnVariables: Option<SpawnVariables>
    /** Milliseconds to wait between kill and spawn instead of the configured delay; 0 when not set. */
    var restartDelayOverride: nat
    /** The two fields of the output handler that `srvCmdBuffer` drives. */
    var cmdBuffer: string
    var enableCmdBuffer: bool
    /** Every line written to a child's stdin so far, oldest first; the children themselves are dropped on kill. */
    ghost var sent: seq<string>

    /** The lifecycle fields as a value. */
    function State(): Runner
      reads this
    {
      Runner(fxChild, history, fxServerPort, fxServerHost, spawnVariables)
    }

    ghost predicate Valid()
      reads this
    {
      Consistent(State())
    }

    constructor (config: Config)
      ensures Valid()
      ensures this.config == config
      ensures State() == Runner(None, [], None, None, None) && restartDelayOverride == 0
      ensures cmdBuffer == "" && !enableCmdBuffer && sent == []
    {
      this.config := config;
      fxChild := None;
      history := [];
      fxServerPort := None;
      fxServerHost := None;
      spawnVariables := None;
      restartDelayOverride := 0;
      cmdBuffer := "";
      enableCmdBuffer := false;
      sent := [];
    }

    /** `setupVariables` with a supported OS and a cfg path: stores the launch command and arguments. */
    method SetupSpawnVariables(g: Globals, tokens: seq<string>)
      requires Valid() && !g.osType.OtherOs? && config.cfgPath.Some?
      modifies this`spawnVariables
      ensures Valid()
      ensures State() == Prepared(old(State()), g, config, tokens)
    {
      spawnVariables := SetupVariables(g, config, config.cfgPath.value, tokens);
    }

    /** `spawnServer`: the result and the new state are `SpawnStep` of the old state. */
    method Spawn(g: Globals, forceFXServerPort: nat, tokens: seq<string>,
                 cfg: CfgRead, lookup: PortLookup, launch: Launch, now: nat)
      returns (res: SpawnResult)
      requires Valid()
      modifies this`spawnVariables, this`fxServerPort, this`fxServerHost, this`fxChild, this`history
      ensures (res, State()) == SpawnStep(old(State()), g, config, forceFXServerPort, tokens, cfg, lookup, launch, now)
      ensures Valid()
    {
      SpawnKeepsConsistent(State(), g, config, forceFXServerPort, tokens, cfg, lookup, launch, now);
      if g.osType.OtherOs? {
        return HostExit;
      }
      if config.cfgPath.Some? {
        SetupSpawnVariables(g, tokens);
      }
      if config.serverDataPath.None? || config.cfgPath.None? {
        return Refused(MissingConfig);
      }
      if fxChild.Some? {
        return Refused(AlreadyStarted);
      }
      res := SettleAndLaunch(g, forceFXServerPort, cfg, lookup, launch, now);
    }

    /** The end of `spawnServer`: the result and the new state are `SettleStep` of the old state. */
    method SettleAndLaunch(g: Globals, forceFXServerPort: nat, cfg: CfgRead, lookup: PortLookup, launch: Launch, now: nat)
      returns (res: SpawnResult)
      requires Valid() && fxChild.None? && spawnVariables.Some?
      modifies this`fxServerPort, this`fxServerHost, this`fxChild, this`history
      ensures Valid()
      ensures (res, State()) == SettleStep(old(State()), g, forceFXServerPort, cfg, lookup, launch, now)
    {
      if cfg.CfgFailure? {
        return Refused(CfgFileError(cfg.message, Contains(cfg.message, "unreadable")));
      }
      var port := ResolvePort(lookup, forceFXServerPort);
      if port.None? {
        return Refused(PortDirectiveError(lookup.message));
      }
      fxServerPort := port;
      fxServerHost := Some(HostString(g.forceInterface, port.value));
      if launch.LaunchFailed? {
        return HostExit;
      }
      res := Started(|history|);
      fxChild := Some(Child(launch.pid, []));
      history := history + [NewRecord(NatToString(launch.pid), now)];
    }

    /** The `exit` handler: stamps the exit of the record its spawn created; reports a run of 5 s or less. */
    method OnExit(historyIndex: nat, now: nat) returns (shortRun: bool)
      requires Valid() && historyIndex < |history|
      modifies this`history
      ensures Valid()
      ensures history == Stamp(old(history), historyIndex, Exit, now)
      ensures shortRun == (now - old(history)[historyIndex].timestamps.start <= 5)
    {
      history := Stamp(history, historyIndex, Exit, now);
      shortRun := history[historyIndex].timestamps.exit - history[historyIndex].timestamps.start <= 5;
    }

    /** The `close` handler: stamps the close of the record its spawn created. */
    method OnClose(historyIndex: nat, now: nat)
      requires Valid() && historyIndex < |history|
      modifies this`history
      ensures Valid()
      ensures history == Stamp(old(history), historyIndex, Close, now)
    {
      history := Stamp(history, historyIndex, Close, now);
    }

    /**
     * `srvCmd`: with no child, false and nothing written; otherwise the
     * line goes to the child's stdin and the result is what `write`
     * returned (false when it threw, in which case nothing was written).
     */
    method SrvCmd(command: string, write: WriteOutcome) returns (ok: bool)
      requires Valid()
      modifies this`fxChild, this`sent
      ensures Valid()
      ensures ok <==> old(fxChild).Some? && write == Written
      ensures fxChild == AfterWrite(old(fxChild), CommandLine(command), write)
      ensures sent == old(sent) + (if old(fxChild).Some? && write != WriteThrew then [CommandLine(command)] else [])
    {
      if fxChild.None? {
        return false;
      }
      fxChild := AfterWrite(fxChild, CommandLine(command), write);
      if write != WriteThrew {
        sent := sent + [CommandLine(command)];
      }
      ok := write == Written;
    }

    /**
     * `srvCmdBuffer`: with no child, false and nothing touched. Otherwise
     * capture is reset and turned on and the command sent; when `srvCmd`
     * fails the result is false and capture is left on; when it succeeds
     * the output the server printed meanwhile (`captured`) is returned
     * without its colour codes and capture is turned off.
     */
    method SrvCmdBuffer(command: string, write: WriteOutcome, captured: string) returns (r: Option<string>)
      requires Valid()
      modifies this`fxChild, this`cmdBuffer, this`enableCmdBuffer, this`sent
      ensures Valid()
      ensures fxChild == AfterWrite(old(fxChild), CommandLine(command), write)
      ensures sent == old(sent) + (if old(fxChild).Some? && write != WriteThrew then [CommandLine(command)] else [])
      ensures old(fxChild).None? ==>
                r.None? && cmdBuffer == old(cmdBuffer) && enableCmdBuffer == old(enableCmdBuffer)
      ensures old(fxChild).Some? && write != Written ==> r.None? && cmdBuffer == "" && enableCmdBuffer
      ensures old(fxChild).Some? && write == Written ==>
                r == Some(StripColours(captured)) && cmdBuffer == captured && !enableCmdBuffer
      ensures r.Some? ==> |r.value| <= |captured|
    {
      if fxChild.None? {
        return None;
      }
      cmdBuffer := "";
      enableCmdBuffer := true;
      var ok := SrvCmd(command, write);
      if !ok {
        return None;
      }
      cmdBuffer := captured;  // what the output handler collected into the reset buffer
      enableCmdBuffer := false;
      r := Some(StripColours(cmdBuffer));
    }

    /** `killServer`: the kick message (when given) goes out as a quoted `quit` through `SrvCmd`, then `KillStep`. */
    method KillServer(kickMessage: Option<string>, write: WriteOutcome, killThrows: bool, now: nat)
      returns (ok: bool)
      requires Valid()
      modifies this`fxChild, this`history, this`sent
      ensures Valid()
      ensures (ok, State()) == KillStep(old(State()), killThrows, now)
      ensures sent == old(sent) + KickLine(old(fxChild), kickMessage, write)
    {
      if kickMessage.Some? {
        var _ := SrvCmd(FormatCommand("quit", [kickMessage.value]), write);
      }
      if fxChild.Some? {
        if killThrows {
          fxChild := None;
          return false;
        }
        fxChild := None;
        history := Stamp(history, |history| - 1, Kill, now);
      }
      ok := true;
    }

    /**
     * `restartServer`: with a reason, the kick message is sent as a quoted
     * `quit`; then `killServer` without a reason (its result is not looked
     * at), the restart delay, and `spawnServer`. The delay is returned;
     * waiting is not modelled.
     */
    method RestartServer(kickMessage: Option<string>, write: WriteOutcome, killThrows: bool, killTime: nat,
                         g: Globals, forceFXServerPort: nat, tokens: seq<string>,
                         cfg: CfgRead, lookup: PortLookup, launch: Launch, spawnTime: nat)
      returns (res: SpawnResult, delay: nat)
      requires Valid()
      modifies this`spawnVariables, this`fxServerPort, this`fxServerHost, this`fxChild, this`history, this`sent
      ensures Valid()
      ensures sent == old(sent) + KickLine(old(fxChild), kickMessage, write)
      ensures delay == RestartDelay(restartDelayOverride, config)
      ensures (res, State()) == RestartStep(old(State()), killThrows, killTime,
                                            g, config, forceFXServerPort, tokens, cfg, lookup, launch, spawnTime)
    {
      ghost var s0 := State();
      if kickMessage.Some? {
        var line := FormatCommand("quit", [kickMessage.value]);
        var _ := SrvCmd(line, write);
        KillAfterWrite(s0, CommandLine(line), write, killThrows, killTime);
      }
      assert KillStep(State(), killThrows, killTime) == KillStep(s0, killThrows, killTime);
      var _ := KillServer(None, Written, killThrows, killTime);
      delay := RestartDelay(restartDelayOverride, config);
      res := Spawn(g, forceFXServerPort, tokens, cfg, lookup, launch, spawnTime);
    }

    /** `getStatus` on the current history. */
    function Status(): (r: Result<Status, string>)
      reads this
      ensures history == [] ==> r == Ok(NotStarted)
    {
      GetStatus(history)
    }

    /** `getUptime` on the current history. */
    function Uptime(now: nat): (r: int)
      reads this
      ensures history == [] ==> r == 0
    {
      GetUptime(history, now)
    }
  }

  /**
   * A caller's view of a spawn: it starts the first record, which then
   * reads "spawned", and a second spawn is refused while the child lives.
   */
  method SpawnScenario(config: Config, g: Globals, tokens: seq<string>)
    requires PathsKnown(g, config)
  {
    var runner := new FXRunner(config);
    assert runner.Status() == Ok(NotStarted);

    var s0 := runner.State();
    var res := runner.Spawn(g, 0, tokens, CfgText("endpoint_add_tcp \"0.0.0.0:30120\""), PortFound(30120),
                            Launched(4242), 1000);
    SpawnOutcomes(s0, g, config, 0, tokens, CfgText("endpoint_add_tcp \"0.0.0.0:30120\""), PortFound(30120),
                  Launched(4242), 1000);
    assert res == Started(0);
    SpawnedServerReports(s0, g, config, 0, tokens, CfgText("endpoint_add_tcp \"0.0.0.0:30120\""), PortFound(30120),
                         Launched(4242), 1000, 1060);
    assert runner.Status() == Ok(Spawned) && runner.Uptime(1060) == 60;

    var s1 := runner.State();
    var again := runner.Spawn(g, 0, tokens, CfgText(""), PortFound(30120), Launched(4343), 1001);
    SpawnOutcomes(s1, g, config, 0, tokens, CfgText(""), PortFound(30120), Launched(4343), 1001);
    assert again == Refused(AlreadyStarted);
  }

  /**
   * A caller's view of a kill: the status is "kill pending" for both
   * events until the exit and close handlers run, then "killed"; a
   * capture afterwards finds no child.
   */
  method KillScenario(runner: FXRunner)
    requires runner.Valid() && runner.fxChild.Some? && runner.history == [NewRecord("4242", 1000)]
    modifies runner
  {
    var h0 := runner.history;
    var ok := runner.KillServer(Some("maintenance"), Written, false, 1010);
    assert ok && runner.fxChild.None?;
    KillLifecycle(h0, 1010, 1011, 1012);
    assert runner.Status() == Ok(KillPending([Exit, Close]));

    var shortRun := runner.OnExit(0, 1011);
    runner.OnClose(0, 1012);
    assert runner.Status() == Ok(Killed);
    assert !shortRun;

    var captured := runner.SrvCmdBuffer("status", Written, "");
    assert captured.None?;
  }
}
