/**
 Rendering a sandbox policy and a command into the flat argument list of bwrap
 (internal/server/sandbox.go), an independent reader of such a list, and the
 environment's way from the configuration file (cmd/server/main.go) into it.
 */
module Sandbox {
  import opened Common

  datatype Policy = Policy(network: string, bindReadOnly: seq<string>, bindReadWrite: seq<string>,
                           noDefaults: bool, disabled: bool)

  /** The command: resolved path, arguments after the program name, environment. */
  datatype Command = Command(path: string, args: seq<string>, env: seq<string>)

  datatype Error =
    | UnsupportedNetwork(network: string)
    | RelativeReadOnly(path: string)
    | RelativeReadWrite(path: string)

  const DEFAULT_RO_BINDS := ["/usr", "/bin", "/sbin", "/lib", "/lib64", "/etc"]

  /** Namespaces, filesystem skeleton, and an emptied environment. */
  const NAMESPACES :=
    ["--unshare-pid", "--unshare-ipc", "--unshare-uts", "--unshare-cgroup-try", "--die-with-parent", "--new-session"]
  const SKELETON := ["--proc", "/proc", "--dev", "/dev", "--tmpfs", "/tmp", "--tmpfs", "/run"]
  const PREAMBLE := NAMESPACES + SKELETON + ["--clearenv"]

  function ResolvePolicy(p: Option<Policy>): Policy {
    var out := if p.Some? then p.value else Policy("", [], [], false, false);
    if out.disabled || out.noDefaults then out
    else out.(bindReadOnly := DEFAULT_RO_BINDS + out.bindReadOnly)
  }

  predicate IsAbs(path: string) {
    |path| > 0 && path[0] == '/'
  }

  // -------------------------------------------------------------- key=value

  /** Index of the first '=', or the length when there is none. */
  function FirstEq(kv: string): (i: nat)
    ensures i <= |kv| && '=' !in kv[..i] && (i < |kv| ==> kv[i] == '=')
  {
    if kv == "" then 0
    else if kv[0] == '=' then 0
    else
      var i := 1 + FirstEq(kv[1..]);
      assert kv[..i] == [kv[0]] + kv[1..][..i - 1];
      i
  }

  /** An entry with a key before its first '='; the others are skipped. */
  predicate WellFormed(kv: string) {
    0 < FirstEq(kv) < |kv|
  }

  function Pair(kv: string): (string, string)
    requires WellFormed(kv)
  {
    (kv[..FirstEq(kv)], kv[FirstEq(kv) + 1..])
  }

  function Pairs(env: seq<string>): seq<(string, string)> {
    if env == [] then []
    else
      var n := |env| - 1;
      Pairs(env[..n]) + if WellFormed(env[n]) then [Pair(env[n])] else []
  }

  // --------------------------------------------------------------- rendering

  function Binds(flag: string, paths: seq<string>): seq<string> {
    if paths == [] then []
    else Binds(flag, paths[..|paths| - 1]) + [flag, paths[|paths| - 1], paths[|paths| - 1]]
  }

  function SetEnvs(pairs: seq<(string, string)>): seq<string> {
    if pairs == [] then []
    else SetEnvs(pairs[..|pairs| - 1]) + ["--setenv", pairs[|pairs| - 1].0, pairs[|pairs| - 1].1]
  }

  function FirstRelative(paths: seq<string>): Option<string> {
    if paths == [] then None
    else
      var before := FirstRelative(paths[..|paths| - 1]);
      if before.Some? || IsAbs(paths[|paths| - 1]) then before else Some(paths[|paths| - 1])
  }

  function NetworkFlags(network: string): seq<string> {
    if network == "none" then ["--unshare-net"] else []
  }

  /** What a policy the renderer accepts comes to. */
  function Rendered(p: Policy, cmd: Command): seq<string> {
    PREAMBLE + NetworkFlags(p.network) + Binds("--ro-bind-try", p.bindReadOnly)
    + Binds("--bind-try", p.bindReadWrite) + SetEnvs(Pairs(cmd.env)) + ["--", cmd.path] + cmd.args
  }

  function Rejected(p: Policy): Option<Error> {
    if p.network != "" && p.network != "host" && p.network != "none" then Some(UnsupportedNetwork(p.network))
    else if FirstRelative(p.bindReadOnly).Some? then Some(RelativeReadOnly(FirstRelative(p.bindReadOnly).value))
    else if FirstRelative(p.bindReadWrite).Some? then Some(RelativeReadWrite(FirstRelative(p.bindReadWrite).value))
    else None
  }

  predicate Acceptable(p: Policy) {
    p.network in {"", "host", "none"} && forall path | path in p.bindReadOnly + p.bindReadWrite :: IsAbs(path)
  }

  /** A policy is rendered exactly when its network mode is known and every bind path
      is absolute; otherwise the first offence is reported. */
  lemma AcceptedIff(p: Policy)
    ensures Rejected(p).None? <==> Acceptable(p)
    ensures Rejected(p).Some? && !Rejected(p).value.UnsupportedNetwork? ==> !IsAbs(Rejected(p).value.path)
  {
    FirstRelativeIsFirst(p.bindReadOnly);
    FirstRelativeIsFirst(p.bindReadWrite);
    assert forall path | path in p.bindReadOnly :: path in p.bindReadOnly + p.bindReadWrite;
    assert forall path | path in p.bindReadWrite :: path in p.bindReadOnly + p.bindReadWrite;
  }

  lemma {:induction false} FirstRelativeIsFirst(paths: seq<string>)
    ensures FirstRelative(paths).None? <==> forall path | path in paths :: IsAbs(path)
    ensures FirstRelative(paths).Some? ==>
              exists i :: 0 <= i < |paths| && paths[i] == FirstRelative(paths).value && !IsAbs(paths[i])
                          && forall j | 0 <= j < i :: IsAbs(paths[j])
  {
    if paths != [] {
      var n := |paths| - 1;
      FirstRelativeIsFirst(paths[..n]);
      assert paths == paths[..n] + [paths[n]];
      if FirstRelative(paths[..n]).Some? {
        var i :| 0 <= i < n && paths[..n][i] == FirstRelative(paths).value && !IsAbs(paths[i])
                 && forall j | 0 <= j < i :: IsAbs(paths[..n][j]);
        assert paths[i] == FirstRelative(paths).value;
      } else {
        forall j | 0 <= j < n ensures IsAbs(paths[j]) {
          assert paths[j] == paths[..n][j];
        }
      }
    }
  }

  /** One of the two loops over bind paths; stops at the first that is not absolute. */
  method AppendBinds(args: seq<string>, flag: string, paths: seq<string>) returns (r: Result<seq<string>, string>)
    ensures r == match FirstRelative(paths) case Some(path) => Err(path) case None => Ok(args + Binds(flag, paths))
  {
    var out := args;
    for i := 0 to |paths|
      invariant FirstRelative(paths[..i]).None?
      invariant out == args + Binds(flag, paths[..i])
    {
      assert paths[..i + 1][..i] == paths[..i];
      if !IsAbs(paths[i]) {
        RelativeStays(paths, i + 1);
        return Err(paths[i]);
      }
      out := out + [flag, paths[i], paths[i]];
    }
    assert paths[..|paths|] == paths;
    r := Ok(out);
  }

  /** The loop over the environment; entries without a key are skipped. */
  method AppendEnv(args: seq<string>, env: seq<string>) returns (out: seq<string>)
    ensures out == args + SetEnvs(Pairs(env))
  {
    hide Pairs, SetEnvs;
    out := args;
    assert SetEnvs(Pairs(env[..0])) == [] by { NoEnv(); }
    for i := 0 to |env|
      invariant out == args + SetEnvs(Pairs(env[..i]))
    {
      assert env[..i + 1] == env[..i] + [env[i]];
      OneMoreEnv(env[..i], env[i]);
      var at := FirstEq(env[i]);
      if at == 0 || at == |env[i]| {
        continue;
      }
      out := out + ["--setenv", env[i][..at], env[i][at + 1..]];
    }
    assert env[..|env|] == env;
  }

  lemma NoEnv()
    ensures SetEnvs(Pairs([])) == []
  {
  }

  lemma OneMoreEnv(env: seq<string>, kv: string)
    ensures Pairs(env + [kv]) == Pairs(env) + if WellFormed(kv) then [Pair(kv)] else []
    ensures SetEnvs(Pairs(env + [kv]))
            == SetEnvs(Pairs(env)) + if WellFormed(kv) then ["--setenv", Pair(kv).0, Pair(kv).1] else []
  {
    var before := Pairs(env);
    assert (env + [kv])[..|env|] == env;
    if WellFormed(kv) {
      assert (before + [Pair(kv)])[..|before|] == before;
    } else {
      assert before + [] == before && SetEnvs(before) + [] == SetEnvs(before);
    }
  }

  method BuildBwrapArgs(p: Policy, cmd: Command) returns (r: Result<seq<string>, Error>)
    ensures r == match Rejected(p) case Some(e) => Err(e) case None => Ok(Rendered(p, cmd))
  {
    hide Binds, Pairs, SetEnvs, FirstRelative;
    var args := PREAMBLE;
    match p.network {
      case "" =>
      case "host" =>
      case "none" => args := args + ["--unshare-net"];
      case _ => return Err(UnsupportedNetwork(p.network));
    }
    assert args == PREAMBLE + NetworkFlags(p.network);
    var withRO := AppendBinds(args, "--ro-bind-try", p.bindReadOnly);
    if withRO.Err? {
      return Err(RelativeReadOnly(withRO.error));
    }
    var withRW := AppendBinds(withRO.value, "--bind-try", p.bindReadWrite);
    if withRW.Err? {
      return Err(RelativeReadWrite(withRW.error));
    }
    args := AppendEnv(withRW.value, cmd.env);
    assert args + ["--"] + [cmd.path] == args + ["--", cmd.path];
    r := Ok(args + ["--"] + [cmd.path] + cmd.args);
  }

  lemma {:induction false} RelativeStays(paths: seq<string>, n: nat)
    requires n <= |paths| && FirstRelative(paths[..n]).Some?
    ensures FirstRelative(paths) == FirstRelative(paths[..n])
  {
    if n == |paths| {
      assert paths[..n] == paths;
    } else {
      assert paths[..|paths| - 1][..n] == paths[..n];
      RelativeStays(paths[..|paths| - 1], n);
    }
  }

  // ----------------------------------------------------------------- reading

  /** How many values follow a flag the renderer uses. */
  function Arity(flag: string): Option<nat> {
    if flag in {"--unshare-pid", "--unshare-ipc", "--unshare-uts", "--unshare-cgroup-try", "--unshare-net",
                "--die-with-parent", "--new-session", "--clearenv"} then Some(0)
    else if flag in {"--proc", "--dev", "--tmpfs"} then Some(1)
    else if flag in {"--ro-bind-try", "--bind-try", "--setenv"} then Some(2)
    else None
  }

  datatype Op = Op(flag: string, values: seq<string>)
  datatype Parsed = Parsed(ops: seq<Op>, argv: seq<string>)

  /** Reads flags with their values up to the "--" that stands where a flag would. */
  function Parse(args: seq<string>): Option<Parsed> {
    if args == [] then None
    else if args[0] == "--" then Some(Parsed([], args[1..]))
    else
      match Arity(args[0])
      case None => None
      case Some(n) =>
        if |args| < n + 1 then None
        else
          match Parse(args[n + 1..])
          case None => None
          case Some(rest) => Some(Parsed([Op(args[0], args[1..n + 1])] + rest.ops, rest.argv))
  }

  /** What the list means for the sandbox. Binds are (source, destination) pairs. */
  datatype Setup = Setup(unshareNet: bool, readOnly: seq<(string, string)>, readWrite: seq<(string, string)>,
                         env: seq<(string, string)>)

  function Execute(s: Setup, op: Op): Setup {
    if op.flag == "--unshare-net" then s.(unshareNet := true)
    else if op.flag == "--clearenv" then s.(env := [])
    else if |op.values| == 2 then
      var pair := (op.values[0], op.values[1]);
      if op.flag == "--ro-bind-try" then s.(readOnly := s.readOnly + [pair])
      else if op.flag == "--bind-try" then s.(readWrite := s.readWrite + [pair])
      else if op.flag == "--setenv" then s.(env := s.env + [pair])
      else s
    else s
  }

  function ExecuteAll(s: Setup, ops: seq<Op>): Setup {
    if ops == [] then s else Execute(ExecuteAll(s, ops[..|ops| - 1]), ops[|ops| - 1])
  }

  /** A reader of argument lists: the sandbox, given whatever environment the parent
      has, and the command line to run in it. */
  function Decode(args: seq<string>, inherited: seq<(string, string)>): Option<(Setup, seq<string>)> {
    match Parse(args)
    case None => None
    case Some(parsed) => Some((ExecuteAll(Setup(false, [], [], inherited), parsed.ops), parsed.argv))
  }

  // ------------------------------------------------- the reader inverts the renderer

  predicate OpOk(op: Op) {
    op.flag != "--" && Arity(op.flag) == Some(|op.values|)
  }

  function Flat(ops: seq<Op>): seq<string> {
    if ops == [] then [] else [ops[0].flag] + ops[0].values + Flat(ops[1..])
  }

  lemma FlatNil()
    ensures Flat([]) == []
  {
  }

  lemma FlatCons(op: Op, rest: seq<Op>)
    ensures Flat([op] + rest) == [op.flag] + op.values + Flat(rest)
  {
    assert ([op] + rest)[1..] == rest;
  }

  lemma {:induction false} FlatAppend(a: seq<Op>, b: seq<Op>)
    ensures Flat(a + b) == Flat(a) + Flat(b)
  {
    hide Flat;
    FlatNil();
    if a == [] {
      assert a + b == b;
    } else {
      FlatAppend(a[1..], b);
      FlatCons(a[0], a[1..]);
      FlatCons(a[0], a[1..] + b);
      assert [a[0]] + a[1..] == a && [a[0]] + (a[1..] + b) == a + b;
    }
  }

  /** Whatever the values are, flags or "--" among them: a list of operations and a
      command line are read back as they were written. */
  lemma {:induction false} ParseInvertsFlat(ops: seq<Op>, argv: seq<string>)
    requires forall op | op in ops :: OpOk(op)
    ensures Parse(Flat(ops) + ["--"] + argv) == Some(Parsed(ops, argv))
  {
    var args := Flat(ops) + ["--"] + argv;
    if ops == [] {
      assert args[1..] == argv;
    } else {
      var op, rest := ops[0], ops[1..];
      ParseInvertsFlat(rest, argv);
      var n := |op.values|;
      assert OpOk(op);
      assert args == [op.flag] + op.values + (Flat(rest) + ["--"] + argv);
      assert args[n + 1..] == Flat(rest) + ["--"] + argv;
      assert args[1..n + 1] == op.values;
      assert [op] + rest == ops;
    }
  }

  function PairOps(flag: string, pairs: seq<(string, string)>): (ops: seq<Op>)
    ensures |ops| == |pairs| && forall i | 0 <= i < |ops| :: ops[i] == Op(flag, [pairs[i].0, pairs[i].1])
  {
    seq(|pairs|, i requires 0 <= i < |pairs| => Op(flag, [pairs[i].0, pairs[i].1]))
  }

  function Twice(paths: seq<string>): (pairs: seq<(string, string)>)
    ensures |pairs| == |paths| && forall i | 0 <= i < |pairs| :: pairs[i] == (paths[i], paths[i])
  {
    seq(|paths|, i requires 0 <= i < |paths| => (paths[i], paths[i]))
  }

  lemma {:induction false} BindsAreOps(flag: string, paths: seq<string>)
    ensures Binds(flag, paths) == Flat(PairOps(flag, Twice(paths)))
  {
    if paths != [] {
      var n := |paths| - 1;
      BindsAreOps(flag, paths[..n]);
      var last := Op(flag, [paths[n], paths[n]]);
      assert PairOps(flag, Twice(paths)) == PairOps(flag, Twice(paths[..n])) + [last];
      FlatAppend(PairOps(flag, Twice(paths[..n])), [last]);
      assert Flat([last]) == [flag, paths[n], paths[n]] by { assert [last][1..] == []; }
    }
  }

  lemma {:induction false} SetEnvsAreOps(pairs: seq<(string, string)>)
    ensures SetEnvs(pairs) == Flat(PairOps("--setenv", pairs))
  {
    if pairs != [] {
      var n := |pairs| - 1;
      SetEnvsAreOps(pairs[..n]);
      var last := Op("--setenv", [pairs[n].0, pairs[n].1]);
      assert PairOps("--setenv", pairs) == PairOps("--setenv", pairs[..n]) + [last];
      FlatAppend(PairOps("--setenv", pairs[..n]), [last]);
      assert Flat([last]) == ["--setenv", pairs[n].0, pairs[n].1] by { assert [last][1..] == []; }
    }
  }

  lemma {:induction false} ExecuteAppend(s: Setup, a: seq<Op>, b: seq<Op>)
    ensures ExecuteAll(s, a + b) == ExecuteAll(ExecuteAll(s, a), b)
  {
    if b == [] {
      assert a + b == a;
    } else {
      ExecuteAppend(s, a, b[..|b| - 1]);
      assert (a + b)[..|a + b| - 1] == a + b[..|b| - 1];
    }
  }

  lemma {:induction false} ExecutePairs(s: Setup, flag: string, pairs: seq<(string, string)>)
    ensures var t := ExecuteAll(s, PairOps(flag, pairs));
            && t.unshareNet == (s.unshareNet || (flag == "--unshare-net" && pairs != []))
            && (flag == "--ro-bind-try" ==> t == s.(readOnly := s.readOnly + pairs))
            && (flag == "--bind-try" ==> t == s.(readWrite := s.readWrite + pairs))
            && (flag == "--setenv" ==> t == s.(env := s.env + pairs))
  {
    if pairs != [] {
      var n := |pairs| - 1;
      ExecutePairs(s, flag, pairs[..n]);
      assert PairOps(flag, pairs)[..n] == PairOps(flag, pairs[..n]);
      assert pairs == pairs[..n] + [pairs[n]];
    }
  }

  /** The parts of the preamble that say nothing about binds, network or environment. */
  const NAMESPACE_OPS :=
    [Op("--unshare-pid", []), Op("--unshare-ipc", []), Op("--unshare-uts", []), Op("--unshare-cgroup-try", []),
     Op("--die-with-parent", []), Op("--new-session", [])]
  const SKELETON_OPS :=
    [Op("--proc", ["/proc"]), Op("--dev", ["/dev"]), Op("--tmpfs", ["/tmp"]), Op("--tmpfs", ["/run"])]
  const INERT := NAMESPACE_OPS + SKELETON_OPS

  lemma {:induction false} InertOps(s: Setup, ops: seq<Op>)
    requires forall op | op in ops :: Execute(s, op) == s
    ensures ExecuteAll(s, ops) == s
  {
    if ops != [] {
      InertOps(s, ops[..|ops| - 1]);
    }
  }

  lemma NamespacesAreOps()
    ensures Flat(NAMESPACE_OPS) == NAMESPACES
  {
    hide Flat;
    var o := NAMESPACE_OPS;
    FlatNil();
    FlatCons(o[5], []);
    FlatCons(o[4], [o[5]] + []);
    FlatCons(o[3], [o[4]] + ([o[5]] + []));
    FlatCons(o[2], [o[3]] + ([o[4]] + ([o[5]] + [])));
    FlatCons(o[1], [o[2]] + ([o[3]] + ([o[4]] + ([o[5]] + []))));
    FlatCons(o[0], [o[1]] + ([o[2]] + ([o[3]] + ([o[4]] + ([o[5]] + [])))));
    assert o == [o[0]] + ([o[1]] + ([o[2]] + ([o[3]] + ([o[4]] + ([o[5]] + [])))));
  }

  lemma SkeletonIsOps()
    ensures Flat(SKELETON_OPS) == SKELETON
  {
    hide Flat;
    var o := SKELETON_OPS;
    FlatNil();
    FlatCons(o[3], []);
    FlatCons(o[2], [o[3]] + []);
    FlatCons(o[1], [o[2]] + ([o[3]] + []));
    FlatCons(o[0], [o[1]] + ([o[2]] + ([o[3]] + [])));
    assert o == [o[0]] + ([o[1]] + ([o[2]] + ([o[3]] + [])));
  }

  lemma PreambleIsOps()
    ensures PREAMBLE == Flat(INERT + [Op("--clearenv", [])])
  {
    NamespacesAreOps();
    SkeletonIsOps();
    FlatAppend(NAMESPACE_OPS, SKELETON_OPS);
    FlatAppend(INERT, [Op("--clearenv", [])]);
    assert [Op("--clearenv", [])][1..] == [];
  }

  function NetworkOps(network: string): seq<Op> {
    if network == "none" then [Op("--unshare-net", [])] else []
  }

  /** Everything the renderer wrote, as operations. */
  function RenderedOps(p: Policy, cmd: Command): seq<Op> {
    INERT + [Op("--clearenv", [])] + NetworkOps(p.network) + PairOps("--ro-bind-try", Twice(p.bindReadOnly))
    + PairOps("--bind-try", Twice(p.bindReadWrite)) + PairOps("--setenv", Pairs(cmd.env))
  }

  lemma RenderedIsFlat(p: Policy, cmd: Command)
    ensures Rendered(p, cmd) == Flat(RenderedOps(p, cmd)) + ["--"] + ([cmd.path] + cmd.args)
  {
    var a := INERT + [Op("--clearenv", [])];
    var b := a + NetworkOps(p.network);
    var c := b + PairOps("--ro-bind-try", Twice(p.bindReadOnly));
    var d := c + PairOps("--bind-try", Twice(p.bindReadWrite));
    PreambleIsOps();
    NetworkIsOps(p.network);
    BindsAreOps("--ro-bind-try", p.bindReadOnly);
    BindsAreOps("--bind-try", p.bindReadWrite);
    SetEnvsAreOps(Pairs(cmd.env));
    hide Flat, Binds, SetEnvs, Pairs, PREAMBLE, INERT;
    FlatAppend(a, NetworkOps(p.network));
    FlatAppend(b, PairOps("--ro-bind-try", Twice(p.bindReadOnly)));
    FlatAppend(c, PairOps("--bind-try", Twice(p.bindReadWrite)));
    FlatAppend(d, PairOps("--setenv", Pairs(cmd.env)));
    assert ["--", cmd.path] + cmd.args == ["--"] + ([cmd.path] + cmd.args);
  }

  lemma PairOpsOk(flag: string, pairs: seq<(string, string)>)
    requires flag != "--" && Arity(flag) == Some(2)
    ensures forall op | op in PairOps(flag, pairs) :: OpOk(op)
  {
  }

  lemma PreambleOpsOk(network: string)
    ensures forall op | op in INERT + [Op("--clearenv", [])] + NetworkOps(network) :: OpOk(op)
  {
    assert forall op | op in NAMESPACE_OPS :: OpOk(op);
    assert forall op | op in SKELETON_OPS :: OpOk(op);
  }

  lemma RenderedOpsOk(p: Policy, cmd: Command)
    ensures forall op | op in RenderedOps(p, cmd) :: OpOk(op)
  {
    PreambleOpsOk(p.network);
    hide Pairs, Twice, PairOps, INERT, OpOk, NetworkOps;
    PairOpsOk("--ro-bind-try", Twice(p.bindReadOnly));
    PairOpsOk("--bind-try", Twice(p.bindReadWrite));
    PairOpsOk("--setenv", Pairs(cmd.env));
  }

  lemma NetworkIsOps(network: string)
    ensures NetworkFlags(network) == Flat(NetworkOps(network))
  {
    assert [Op("--unshare-net", [])][1..] == [];
  }

  /** Unique decoding: for every policy and command, and for every path, value and
      argument string, also ones that look like flags or "--", a reader with the fixed
      arity of each flag recovers the network mode, the binds in order, the environment
      entries and the whole command line; nothing of an inherited environment is left. */
  lemma DecodeInvertsRender(p: Policy, cmd: Command, inherited: seq<(string, string)>)
    ensures Decode(Rendered(p, cmd), inherited)
            == Some((Setup(p.network == "none", Twice(p.bindReadOnly), Twice(p.bindReadWrite), Pairs(cmd.env)),
                     [cmd.path] + cmd.args))
  {
    hide Flat, Rendered, RenderedOps, Execute, Pairs;
    RenderedIsFlat(p, cmd);
    RenderedOpsOk(p, cmd);
    ParseInvertsFlat(RenderedOps(p, cmd), [cmd.path] + cmd.args);
    ExecuteRendered(p, cmd, inherited);
  }

  lemma ExecuteRendered(p: Policy, cmd: Command, inherited: seq<(string, string)>)
    ensures ExecuteAll(Setup(false, [], [], inherited), RenderedOps(p, cmd))
            == Setup(p.network == "none", Twice(p.bindReadOnly), Twice(p.bindReadWrite), Pairs(cmd.env))
  {
    var s := Setup(false, [], [], inherited);
    var a := INERT + [Op("--clearenv", [])];
    var b := a + NetworkOps(p.network);
    var ro, rw, env := Twice(p.bindReadOnly), Twice(p.bindReadWrite), Pairs(cmd.env);
    var t := Setup(p.network == "none", [], [], []);
    ExecutePreamble(s, p.network);
    hide Execute, Pairs, INERT, ExecuteAll, Twice, PairOps;
    assert [] + ro == ro && [] + rw == rw && [] + env == env;
    ExecuteAppend(s, b, PairOps("--ro-bind-try", ro));
    ExecuteAppend(s, b + PairOps("--ro-bind-try", ro), PairOps("--bind-try", rw));
    ExecuteAppend(s, b + PairOps("--ro-bind-try", ro) + PairOps("--bind-try", rw), PairOps("--setenv", env));
    ExecutePairs(t, "--ro-bind-try", ro);
    ExecutePairs(t.(readOnly := ro), "--bind-try", rw);
    ExecutePairs(t.(readOnly := ro, readWrite := rw), "--setenv", env);
  }

  lemma InertPreamble(s: Setup)
    ensures ExecuteAll(s, INERT) == s
  {
    InertOps(s, NAMESPACE_OPS);
    InertOps(s, SKELETON_OPS);
    ExecuteAppend(s, NAMESPACE_OPS, SKELETON_OPS);
  }

  lemma ExecutePreamble(s: Setup, network: string)
    requires !s.unshareNet
    ensures ExecuteAll(s, INERT + [Op("--clearenv", [])] + NetworkOps(network))
            == s.(env := [], unshareNet := network == "none")
  {
    var clear, net := [Op("--clearenv", [])], NetworkOps(network);
    assert clear[..0] == [] && (net != [] ==> net[..0] == []);
    assert ExecuteAll(s, clear) == s.(env := []);
    assert ExecuteAll(s.(env := []), net) == s.(env := [], unshareNet := network == "none");
    hide Execute, INERT, ExecuteAll;
    InertPreamble(s);
    ExecuteAppend(s, INERT, clear);
    ExecuteAppend(s, INERT + clear, net);
  }

  // ------------------------------------------------------- wrapping a command

  datatype Wrapped = Unchanged | InSandbox(bwrap: string, args: seq<string>)
  datatype WrapError = SandboxUnavailable | BadPolicy(error: Error)

  /** What the operator wrote; no policy is the zero policy. */
  function Written(policy: Option<Policy>): Policy {
    if policy.Some? then policy.value else Policy("", [], [], false, false)
  }

  /** The read-only paths in force: the defaults first, unless they were declined. */
  function ReadOnlyPaths(p: Policy): seq<string> {
    (if p.noDefaults then [] else DEFAULT_RO_BINDS) + p.bindReadOnly
  }

  lemma DefaultsAreAbsolute(p: Policy)
    ensures (forall path | path in ReadOnlyPaths(p) :: IsAbs(path))
            <==> forall path | path in p.bindReadOnly :: IsAbs(path)
  {
    assert forall path | path in p.bindReadOnly :: path in ReadOnlyPaths(p);
  }

  /** WrapCommand; bwrap is where the sandbox program was found. A policy that is not
      disabled is refused or rendered, never ignored, and what is rendered means what the
      operator wrote: network mode, default and own read-only paths, read-write paths,
      environment and command line, and nothing of the parent's environment. */
  method WrapCommand(policy: Option<Policy>, bwrap: Option<string>, cmd: Command)
    returns (r: Result<Wrapped, WrapError>)
    ensures Written(policy).disabled <==> r == Ok(Unchanged)
    ensures !Written(policy).disabled && bwrap.None? ==> r == Err(SandboxUnavailable)
    ensures !Written(policy).disabled && bwrap.Some? ==> (r.Ok? <==> Acceptable(Written(policy)))
    ensures r.Ok? && r.value.InSandbox? ==>
              var p := Written(policy);
              bwrap == Some(r.value.bwrap) && forall inherited ::
                Decode(r.value.args, inherited)
                == Some((Setup(p.network == "none", Twice(ReadOnlyPaths(p)), Twice(p.bindReadWrite), Pairs(cmd.env)),
                         [cmd.path] + cmd.args))
  {
    var p := ResolvePolicy(policy);
    if p.disabled {
      return Ok(Unchanged);
    }
    if bwrap.None? {
      return Err(SandboxUnavailable);
    }
    var w := Written(policy);
    assert p.bindReadOnly == ReadOnlyPaths(w);
    AcceptedIff(p);
    DefaultsAreAbsolute(w);
    var args := BuildBwrapArgs(p, cmd);
    hide Decode, Rendered, Rejected, Pairs;
    match args {
      case Err(e) => r := Err(BadPolicy(e));
      case Ok(list) =>
        r := Ok(InSandbox(bwrap.value, list));
        forall inherited
          ensures Decode(list, inherited)
                  == Some((Setup(w.network == "none", Twice(ReadOnlyPaths(w)), Twice(w.bindReadWrite), Pairs(cmd.env)),
                           [cmd.path] + cmd.args))
        {
          DecodeInvertsRender(p, cmd, inherited);
        }
    }
  }

  // -------------------------------------------------- the environment's round trip

  /** The entries main builds: one "key=value" per key, in some order of the keys. */
  function Entries(env: map<string, string>, order: seq<string>): seq<string>
    requires forall k | k in order :: k in env
  {
    if order == [] then []
    else
      var k := order[|order| - 1];
      Entries(env, order[..|order| - 1]) + [k + "=" + env[k]]
  }

  /** The order of sort.Strings. */
  predicate Less(a: string, b: string) {
    b != "" && (a == "" || a[0] < b[0] || (a[0] == b[0] && Less(a[1..], b[1..])))
  }

  lemma {:induction false} LessIsAsymmetric(a: string, b: string)
    ensures !(Less(a, b) && Less(b, a))
  {
    if a != "" && b != "" && a[0] == b[0] {
      LessIsAsymmetric(a[1..], b[1..]);
    }
  }

  lemma {:induction false} LessIsTotal(a: string, b: string)
    ensures a == b || Less(a, b) || Less(b, a)
  {
    if a != "" && b != "" && a[0] == b[0] {
      LessIsTotal(a[1..], b[1..]);
      assert [a[0]] + a[1..] == a && [b[0]] + b[1..] == b;
    }
  }

  lemma {:induction false} LessIsTransitive(a: string, b: string, c: string)
    requires Less(a, b) && Less(b, c)
    ensures Less(a, c)
  {
    if a != "" && a[0] == b[0] && b[0] == c[0] {
      LessIsTransitive(a[1..], b[1..], c[1..]);
    }
  }

  ghost predicate Ascending(keys: seq<string>) {
    forall i, j | 0 <= i < j < |keys| :: Less(keys[i], keys[j])
  }

  /** Exactly the keys of a map, in ascending order. */
  ghost predicate SortedKeys(keys: seq<string>, all: set<string>) {
    Ascending(keys) && forall k :: k in keys <==> k in all
  }

  function Insert(k: string, keys: seq<string>): seq<string> {
    if keys == [] || Less(k, keys[0]) then [k] + keys else [keys[0]] + Insert(k, keys[1..])
  }

  /** sort.Strings */
  function SortStrings(keys: seq<string>): seq<string> {
    if keys == [] then [] else Insert(keys[0], SortStrings(keys[1..]))
  }

  lemma {:induction false} InsertKeepsAscending(k: string, keys: seq<string>)
    requires Ascending(keys) && k !in keys
    ensures Ascending(Insert(k, keys)) && forall x :: x in Insert(k, keys) <==> x == k || x in keys
  {
    if keys == [] {
    } else if Less(k, keys[0]) {
      forall i | 0 < i < |keys| ensures Less(k, keys[i]) {
        LessIsTransitive(k, keys[0], keys[i]);
      }
    } else {
      LessIsTotal(k, keys[0]);
      InsertKeepsAscending(k, keys[1..]);
      forall x | x in Insert(k, keys[1..]) ensures Less(keys[0], x) {
      }
      assert keys == [keys[0]] + keys[1..];
    }
  }

  lemma OneMoreKey(keys: seq<string>, k: string)
    requires Distinct(keys) && k !in keys
    ensures Distinct(keys + [k]) && forall x :: x in keys + [k] <==> x in keys || x == k
  {
    var all := keys + [k];
    forall i, j | 0 <= i < j < |all| ensures all[i] != all[j] {
      assert all[i] == keys[i] && all[i] in keys;
      assert all[j] == if j < |keys| then keys[j] else k;
    }
  }

  lemma {:induction false} SortSorts(keys: seq<string>)
    requires Distinct(keys)
    ensures SortedKeys(SortStrings(keys), set k | k in keys)
  {
    if keys != [] {
      SortSorts(keys[1..]);
      InsertKeepsAscending(keys[0], SortStrings(keys[1..]));
      assert keys == [keys[0]] + keys[1..];
    }
  }

  /** There is only one ascending list of the keys, whatever order a map is walked in. */
  lemma {:induction false} SortedKeysAreUnique(a: seq<string>, b: seq<string>, all: set<string>)
    requires SortedKeys(a, all) && SortedKeys(b, all)
    ensures a == b
  {
    if a == [] {
      if b != [] {
        HasKeys(b, all);
      }
    } else {
      HasKeys(a, all);
      assert b != [];
      LessIsAsymmetric(a[0], b[0]);
      assert a[0] in b && b[0] in a;
      var i :| 0 <= i < |b| && b[i] == a[0];
      var j :| 0 <= j < |a| && a[j] == b[0];
      assert a[0] == b[0];
      TailIsSorted(a, all);
      TailIsSorted(b, all);
      SortedKeysAreUnique(a[1..], b[1..], all - {a[0]});
    }
  }

  lemma HasKeys(a: seq<string>, all: set<string>)
    requires SortedKeys(a, all) && a != []
    ensures all != {}
  {
    assert a[0] in all;
  }

  lemma TailIsSorted(a: seq<string>, all: set<string>)
    requires SortedKeys(a, all) && a != []
    ensures SortedKeys(a[1..], all - {a[0]})
  {
    LessIsAsymmetric(a[0], a[0]);
    assert a == [a[0]] + a[1..];
  }

  /** The keys of a map, in whatever order it is walked. */
  method CollectKeys(env: map<string, string>) returns (keys: seq<string>)
    ensures Distinct(keys) && forall k :: k in keys <==> k in env
  {
    keys := [];
    var todo := env.Keys;
    while todo != {}
      invariant todo <= env.Keys && forall k :: k in keys <==> k in env.Keys - todo
      invariant Distinct(keys)
      decreases todo
    {
      hide Distinct;
      var k :| k in todo;
      assert k !in keys;
      OneMoreKey(keys, k);
      todo := todo - {k};
      keys := keys + [k];
    }
  }

  /** The entries main hands to the backend: the keys collected from the map, sorted, and
      written out. The outcome depends on the map alone, as there is one ascending list of
      its keys (SortedKeysAreUnique). */
  method FlattenEnv(env: map<string, string>) returns (entries: seq<string>)
    ensures exists order :: SortedKeys(order, env.Keys) && entries == Entries(env, order)
  {
    var keys := CollectKeys(env);
    SortSorts(keys);
    assert env.Keys == set k | k in keys;
    keys := SortStrings(keys);
    assert SortedKeys(keys, env.Keys);
    hide Ascending, SortStrings;
    entries := [];
    for i := 0 to |keys|
      invariant entries == Entries(env, keys[..i])
    {
      assert keys[..i + 1][..i] == keys[..i];
      entries := entries + [keys[i] + "=" + env[keys[i]]];
    }
    assert keys[..|keys|] == keys;
  }

  /** The variables a process ends up with; a later entry replaces an earlier one. */
  function Environment(pairs: seq<(string, string)>): map<string, string> {
    if pairs == [] then map[]
    else
      var last := pairs[|pairs| - 1];
      Environment(pairs[..|pairs| - 1])[last.0 := last.1]
  }

  predicate ProperKey(k: string) {
    k != "" && '=' !in k
  }

  lemma EntrySplits(k: string, v: string)
    requires ProperKey(k)
    ensures WellFormed(k + "=" + v) && Pair(k + "=" + v) == (k, v)
  {
    var kv := k + "=" + v;
    assert kv[..|k|] == k && kv[|k| + 1..] == v;
    FirstEqIs(kv, |k|);
  }

  lemma {:induction false} FirstEqIs(kv: string, n: nat)
    requires n < |kv| && kv[n] == '=' && '=' !in kv[..n]
    ensures FirstEq(kv) == n
  {
    if n > 0 {
      assert kv[0] == kv[..n][0];
      assert kv[1..][..n - 1] == kv[..n][1..];
      FirstEqIs(kv[1..], n - 1);
    }
  }

  lemma {:induction false} KeysAreProper(entries: seq<string>)
    ensures forall k | k in Environment(Pairs(entries)) :: ProperKey(k)
  {
    if entries != [] {
      var n := |entries| - 1;
      KeysAreProper(entries[..n]);
      if WellFormed(entries[n]) {
        var pairs := Pairs(entries);
        assert pairs[..|pairs| - 1] == Pairs(entries[..n]);
      } else {
        assert Pairs(entries) == Pairs(entries[..n]);
      }
    }
  }

  lemma EnvironmentOneMore(pairs: seq<(string, string)>, k: string, v: string)
    ensures Environment(pairs + [(k, v)]) == Environment(pairs)[k := v]
  {
    assert (pairs + [(k, v)])[..|pairs|] == pairs;
  }

  lemma RestrictedOneMore(env: map<string, string>, order: seq<string>, k: string)
    requires k in env && forall x | x in order :: x in env
    ensures (map x | x in order + [k] :: env[x]) == (map x | x in order :: env[x])[k := env[k]]
  {
  }

  lemma {:induction false} ProperEntriesRoundTrip(env: map<string, string>, order: seq<string>)
    requires forall k | k in order :: k in env && ProperKey(k)
    ensures Environment(Pairs(Entries(env, order))) == map k | k in order :: env[k]
  {
    if order != [] {
      var n := |order| - 1;
      var k := order[n];
      ProperEntriesRoundTrip(env, order[..n]);
      var before := Entries(env, order[..n]);
      assert Entries(env, order) == before + [k + "=" + env[k]];
      hide Entries, Pairs, Environment;
      EntrySplits(k, env[k]);
      OneMoreEnv(before, k + "=" + env[k]);
      EnvironmentOneMore(Pairs(before), k, env[k]);
      RestrictedOneMore(env, order[..n], k);
      assert order == order[..n] + [k];
    }
  }

  /** The environment of the configuration file reaches the sandboxed process
      unchanged, in whatever order its keys are written, and whatever the parent's
      environment is, exactly when every key is non-empty and free of '='. */
  lemma EnvironmentRoundTripIff(p: Policy, path: string, args: seq<string>, env: map<string, string>,
                                order: seq<string>, inherited: seq<(string, string)>)
    requires forall k :: k in order <==> k in env
    ensures var decoded := Decode(Rendered(p, Command(path, args, Entries(env, order))), inherited);
            decoded.Some? &&
            (Environment(decoded.value.0.env) == env <==> forall k | k in env :: ProperKey(k))
  {
    DecodeInvertsRender(p, Command(path, args, Entries(env, order)), inherited);
    KeysAreProper(Entries(env, order));
    if forall k | k in env :: ProperKey(k) {
      ProperEntriesRoundTrip(env, order);
    }
  }
}
