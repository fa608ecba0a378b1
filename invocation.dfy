/**
 * The launch invocation of FXServer (`setupVariables`) and the
 * `interface:port` host strings. Everything the runner reads from its
 * configuration and from the process-wide globals is an input here; the
 * tokens that the shell-like tokenizer (`parseArgsStringToArgv`) makes of
 * the extra command line, and the resolved installation root
 * (`path.resolve(fxServerPath, '../../')`), are inputs too, since the code
 * computing them is not part of this model.
 */
module Invocation {
  import opened Wrappers
  import opened Text

  datatype OsType = Linux | Windows | OtherOs(name: string)

  /**
   * The globals `setupVariables` and `spawnServer` read. A string that is
   * empty stands for every falsy value the source tests with `?:` or `||`.
   */
  datatype Globals = Globals(
    osType: OsType,
    fxServerPath: string,
    alpinePath: string,           // path.resolve(fxServerPath, '../../')
    txAdminVersion: string,
    txAdminPort: nat,
    forceInterface: string,       // "" when not forced
    language: string,             // translator.language, "" when unset
    intercomToken: string,
    onJoinCheckBan: bool,
    onJoinCheckWhitelist: bool)

  /** The runner's scoped configuration. `None` is the source's `null`. */
  datatype Config = Config(
    serverDataPath: Option<string>,
    cfgPath: Option<string>,
    commandLine: Option<string>,  // None when the setting is not a string
    onesync: string,
    restartDelay: nat)

  datatype SpawnVariables = SpawnVariables(command: string, args: seq<string>)

  const Loopback: string := "127.0.0.1"

  /** `${iface}:${port}` when an interface is forced, else `127.0.0.1:${port}`. */
  function HostString(forceInterface: string, port: nat): (r: string)
    ensures (if forceInterface != "" then forceInterface else Loopback) <= r
    ensures var d := NatToString(port); |r| > |d| && r[|r| - |d| - 1] == ':' && r[|r| - |d|..] == d
  {
    (if forceInterface != "" then forceInterface else Loopback) + ":" + NatToString(port)
  }

  /** Index of the last ':' of `s`, if any. */
  function LastColon(s: string): (r: Option<nat>)
    ensures r.Some? ==> r.value < |s| && s[r.value] == ':' && ':' !in s[r.value + 1..]
    ensures r.None? ==> ':' !in s
  {
    if s == [] then None
    else if s[|s| - 1] == ':' then Some(|s| - 1)
    else
      var r := LastColon(s[..|s| - 1]);
      assert s == s[..|s| - 1] + [s[|s| - 1]];
      r
  }

  /** Splits a host string at its last ':' into interface and port. */
  function ParseHost(s: string): (r: Option<(string, nat)>)
  {
    match LastColon(s)
    case None => None
    case Some(i) =>
      var digits := s[i + 1..];
      if digits != [] && forall k :: 0 <= k < |digits| ==> IsDigit(digits[k])
      then Some((s[..i], DecimalValue(digits)))
      else None
  }

  /**
   * The host string determines the interface and the port: reading it back
   * at its last ':' (interfaces such as IPv6 addresses may hold colons,
   * the decimal port never does) gives both.
   */
  lemma HostRoundTrip(forceInterface: string, port: nat)
    ensures ParseHost(HostString(forceInterface, port))
            == Some((if forceInterface != "" then forceInterface else Loopback, port))
  {
    var base := if forceInterface != "" then forceInterface else Loopback;
    var digits := NatToString(port);
    var s := HostString(forceInterface, port);
    assert s == (base + [':']) + digits;
    assert ':' !in digits by {
      forall k | 0 <= k < |digits| ensures digits[k] != ':' {
        assert IsDigit(digits[k]);
      }
    }
    LastColonAfter(base + [':'], digits);
    assert s[..|base|] == base;
    assert s[|base| + 1..] == digits;
    DecimalRoundTrip(port);
  }

  lemma {:induction false} LastColonAfter(p: string, d: string)
    requires p != [] && p[|p| - 1] == ':' && ':' !in d
    ensures LastColon(p + d) == Some(|p| - 1)
    decreases |d|
  {
    if d == [] {
      assert p + d == p;
    } else {
      var s := p + d;
      assert s[|s| - 1] == d[|d| - 1];
      assert s[..|s| - 1] == p + d[..|d| - 1];
      LastColonAfter(p, d[..|d| - 1]);
    }
  }

  /**
   * The user's extra arguments: the tokens of the command line when a
   * non-empty one is set, else none.
   */
  function ExtraArgs(commandLine: Option<string>, tokens: seq<string>): (r: seq<string>)
    ensures commandLine.Some? && commandLine.value != "" ==> r == tokens
    ensures commandLine.None? || commandLine.value == "" ==> r == []
  {
    match commandLine
    case Some(line) => if |line| > 0 then tokens else []
    case None => []
  }

  function BoolText(b: bool): (r: string)
    ensures r == "true" || r == "false"
    ensures (r == "true") == b
  {
    if b then "true" else "false"
  }

  /** The convars txAdmin sets on every launch, in order. */
  const TxAdminConvars: seq<string> :=
    ["txAdmin-version", "txAdmin-locale", "txAdmin-apiHost", "txAdmin-apiToken",
     "txAdmin-checkPlayerJoin", "txAdminServerMode"]

  /** The 18 fixed tokens at the head of the FXServer arguments. */
  function TxAdminArgs(g: Globals): (r: seq<string>)
    ensures |r| == 3 * |TxAdminConvars|
  {
    [ "+sets", "txAdmin-version", g.txAdminVersion,
      "+setr", "txAdmin-locale", if g.language != "" then g.language else "en",
      "+set", "txAdmin-apiHost", HostString(g.forceInterface, g.txAdminPort),
      "+set", "txAdmin-apiToken", g.intercomToken,
      "+set", "txAdmin-checkPlayerJoin", BoolText(g.onJoinCheckBan || g.onJoinCheckWhitelist),
      "+set", "txAdminServerMode", "true" ]
  }

  /** The block is six triples, each a set verb followed by one of the txAdmin convars. */
  lemma TxAdminArgsTriples(g: Globals)
    ensures forall i :: 0 <= i < |TxAdminConvars| ==>
              IsSetVerb(TxAdminArgs(g)[3 * i]) && TxAdminArgs(g)[3 * i + 1] == TxAdminConvars[i]
  {
    var r := TxAdminArgs(g);
    forall i | 0 <= i < |TxAdminConvars|
      ensures IsSetVerb(r[3 * i]) && r[3 * i + 1] == TxAdminConvars[i]
    {
      if i < 2 { assert i == 0 || i == 1; } else { assert 2 <= i < 6; assert r[3 * i] == "+set"; }
    }
  }

  function Trailer(onesync: string, cfgPath: string): seq<string> {
    ["+set", "onesync", onesync, "+exec", cfgPath]
  }

  /** `cmdArgs`: the txAdmin block, then the user's arguments, then onesync and the cfg exec. */
  function CmdArgs(g: Globals, extra: seq<string>, onesync: string, cfgPath: string): (r: seq<string>)
    ensures |r| == 3 * |TxAdminConvars| + |extra| + 5
    ensures r[|r| - 2..] == ["+exec", cfgPath]
  {
    TxAdminArgs(g) + extra + Trailer(onesync, cfgPath)
  }

  /** The three parts of `cmdArgs` sit at fixed places: the user's tokens start at 18, the trailer is last. */
  lemma CmdArgsLayout(g: Globals, extra: seq<string>, onesync: string, cfgPath: string)
    ensures var r := CmdArgs(g, extra, onesync, cfgPath);
            && |r| == 18 + |extra| + 5
            && r[..18] == TxAdminArgs(g)
            && r[18..18 + |extra|] == extra
            && r[|r| - 5..] == Trailer(onesync, cfgPath)
  {
    var r := CmdArgs(g, extra, onesync, cfgPath);
    assert r == TxAdminArgs(g) + (extra + Trailer(onesync, cfgPath));
    assert r[18..] == extra + Trailer(onesync, cfgPath);
  }

  /** The seven tokens that run FXServer through the bundled musl loader on Linux. */
  function LinuxPrefix(alpinePath: string): seq<string> {
    [ "--library-path",
      alpinePath + "/usr/lib/v8/:" + alpinePath + "/lib/:" + alpinePath + "/usr/lib/",
      "--",
      alpinePath + "/opt/cfx-server/FXServer",
      "+set", "citizen_dir", alpinePath + "/opt/cfx-server/citizen/" ]
  }

  /**
   * `setupVariables`: the command and arguments for the OS at hand, or
   * `None` for an unsupported OS (where the source ends the host process).
   */
  function SetupVariables(g: Globals, config: Config, cfgPath: string, tokens: seq<string>)
    : (r: Option<SpawnVariables>)
    ensures r.None? <==> g.osType.OtherOs?
  {
    var cmdArgs := CmdArgs(g, ExtraArgs(config.commandLine, tokens), config.onesync, cfgPath);
    match g.osType
    case Linux =>
      Some(SpawnVariables(g.alpinePath + "/opt/cfx-server/ld-musl-x86_64.so.1",
                          LinuxPrefix(g.alpinePath) + cmdArgs))
    case Windows =>
      Some(SpawnVariables(g.fxServerPath + "/FXServer.exe", cmdArgs))
    case OtherOs(_) => None
  }

  /**
   * On Windows the arguments are exactly the FXServer arguments; on Linux
   * they follow the seven loader tokens, with `--` at index 2.
   */
  lemma SetupVariablesLayout(g: Globals, config: Config, cfgPath: string, tokens: seq<string>)
    ensures var r := SetupVariables(g, config, cfgPath, tokens);
            g.osType == Windows ==>
              r == Some(SpawnVariables(g.fxServerPath + "/FXServer.exe",
                                       CmdArgs(g, ExtraArgs(config.commandLine, tokens), config.onesync, cfgPath)))
    ensures var r := SetupVariables(g, config, cfgPath, tokens);
            g.osType == Linux ==>
              && r.Some?
              && r.value.command == g.alpinePath + "/opt/cfx-server/ld-musl-x86_64.so.1"
              && |r.value.args| >= 7
              && r.value.args[..7] == LinuxPrefix(g.alpinePath)
              && r.value.args[2] == "--"
              && r.value.args[7..] == CmdArgs(g, ExtraArgs(config.commandLine, tokens), config.onesync, cfgPath)
  {
  }

  predicate IsSetVerb(s: string) {
    s == "+set" || s == "+sets" || s == "+setr"
  }

  /**
   * The value that the last `+set`/`+sets`/`+setr` triple for convar `name`
   * gives it. FXServer runs its `+` commands in order, so the last one wins.
   */
  function LastSetValue(args: seq<string>, name: string): Option<string> {
    LastSetBefore(args, name, |args|)
  }

  /** The last triple for `name` that ends at or before index `n`. */
  function LastSetBefore(args: seq<string>, name: string, n: nat): Option<string>
    requires n <= |args|
    decreases n
  {
    if n < 3 then None
    else if IsSetVerb(args[n - 3]) && args[n - 2] == name then Some(args[n - 1])
    else LastSetBefore(args, name, n - 1)
  }

  /** The arguments for the OS, as the spawn receives them (empty for an unsupported OS). */
  function ArgsOf(r: Option<SpawnVariables>): seq<string> {
    match r
    case Some(v) => v.args
    case None => []
  }

  lemma TrailerDecides(args: seq<string>, onesync: string, cfgPath: string)
    requires |args| >= 5 && args[|args| - 5..] == Trailer(onesync, cfgPath)
    ensures LastSetValue(args, "onesync") == Some(onesync)
  {
    var n := |args|;
    assert args[n - 5] == "+set" && args[n - 4] == "onesync" && args[n - 3] == onesync;
    assert args[n - 2] == "+exec" && args[n - 1] == cfgPath;
    assert LastSetBefore(args, "onesync", n) == LastSetBefore(args, "onesync", n - 1);
    assert LastSetBefore(args, "onesync", n - 1) == LastSetBefore(args, "onesync", n - 2);
  }

  /**
   * Whatever the user's extra command line holds, among the command-line
   * arguments the `onesync` convar ends up with the configured value, and
   * the cfg file is executed last (the cfg file itself may set convars
   * again; its contents are not part of this model).
   */
  lemma OnesyncAlwaysConfigured(g: Globals, config: Config, cfgPath: string, tokens: seq<string>)
    requires !g.osType.OtherOs?
    ensures var args := ArgsOf(SetupVariables(g, config, cfgPath, tokens));
            && LastSetValue(args, "onesync") == Some(config.onesync)
            && |args| >= 2 && args[|args| - 2..] == ["+exec", cfgPath]
  {
    var args := ArgsOf(SetupVariables(g, config, cfgPath, tokens));
    var cmd := CmdArgs(g, ExtraArgs(config.commandLine, tokens), config.onesync, cfgPath);
    if g.osType == Linux {
      assert args == LinuxPrefix(g.alpinePath) + cmd;
      assert args[7..] == cmd;
      assert args[|args| - 5..] == args[7..][|cmd| - 5..];
    } else {
      assert args == cmd;
    }
    assert args[|args| - 5..] == cmd[|cmd| - 5..];
    TrailerDecides(args, config.onesync, cfgPath);
    assert args[|args| - 2..] == args[|args| - 5..][3..];
  }

  /** Scanning back over the trailer to a `+set name v` triple right before it. */
  lemma ScanPastTrailer(a: seq<string>, name: string, v: string, onesync: string, cfgPath: string)
    requires !IsSetVerb(name) && name != "onesync" && name != "+exec"
    requires |a| >= 8 && a[|a| - 8..] == ["+set", name, v] + Trailer(onesync, cfgPath)
    ensures LastSetValue(a, name) == Some(v)
  {
    var n := |a|;
    assert a[n - 8] == "+set" && a[n - 7] == name && a[n - 6] == v;
    assert a[n - 5] == "+set" && a[n - 4] == "onesync" && a[n - 3] == onesync;
    assert a[n - 2] == "+exec" && a[n - 1] == cfgPath;
    assert LastSetBefore(a, name, n) == LastSetBefore(a, name, n - 1);
    assert LastSetBefore(a, name, n - 1) == LastSetBefore(a, name, n - 2);
    assert LastSetBefore(a, name, n - 2) == LastSetBefore(a, name, n - 3);
    assert LastSetBefore(a, name, n - 3) == LastSetBefore(a, name, n - 4);
    assert LastSetBefore(a, name, n - 4) == LastSetBefore(a, name, n - 5);
  }

  /**
   * The user's extra arguments come after the txAdmin block, so a
   * `+set <txAdmin convar> v` at the end of the extra command line
   * overrides the value txAdmin set.
   */
  lemma ExtraArgsOverrideTxAdmin(g: Globals, config: Config, cfgPath: string, tokens: seq<string>,
                                 i: nat, pre: seq<string>, v: string)
    requires !g.osType.OtherOs? && i < |TxAdminConvars|
    requires config.commandLine.Some? && config.commandLine.value != ""
    requires tokens == pre + ["+set", TxAdminConvars[i], v]
    ensures LastSetValue(ArgsOf(SetupVariables(g, config, cfgPath, tokens)), TxAdminConvars[i]) == Some(v)
  {
    var name := TxAdminConvars[i];
    var extra := pre + ["+set", name, v];
    var args := ArgsOf(SetupVariables(g, config, cfgPath, tokens));
    var cmd := CmdArgs(g, extra, config.onesync, cfgPath);
    assert cmd == (TxAdminArgs(g) + pre) + (["+set", name, v] + Trailer(config.onesync, cfgPath));
    assert cmd[|cmd| - 8..] == ["+set", name, v] + Trailer(config.onesync, cfgPath);
    if g.osType == Linux {
      assert args == LinuxPrefix(g.alpinePath) + cmd;
      assert args[|args| - 8..] == cmd[|cmd| - 8..];
    }
    assert !IsSetVerb(name) && name != "onesync" && name != "+exec";
    ScanPastTrailer(args, name, v, config.onesync, cfgPath);
  }
}
