/**
 * The `launch-ecs-task` tool. It builds a container command from a repository name and
 * launches an ECS task with it. In `cli` mode the names are the positional arguments.
 * In `lambda` mode each name arrives as the payload of a Lambda invocation, normally
 * base64-encoded by a Lambda dispatcher.
 */
module LaunchEcsTask {
  import opened Common
  import Base64
  import Lambda

  /** `strings.Split(s, sep)` for a one-element separator: the pieces between the
      separators, so one more piece than there are separators. */
  function SplitOn<T(==)>(s: seq<T>, sep: T): (r: seq<seq<T>>)
    ensures |r| >= 1
  {
    if s == [] then [[]]
    else
      var rest := SplitOn(s[1..], sep);
      if s[0] == sep then [[]] + rest else [[s[0]] + rest[0]] + rest[1..]
  }

  /** How often `sep` occurs in `s`. */
  function Count<T(==)>(s: seq<T>, sep: T): nat
  {
    if s == [] then 0 else (if s[0] == sep then 1 else 0) + Count(s[1..], sep)
  }

  /** `strings.Join(parts, sep)`. */
  function JoinOn<T>(parts: seq<seq<T>>, sep: T): seq<T>
  {
    if parts == [] then [] else if |parts| == 1 then parts[0] else parts[0] + [sep] + JoinOn(parts[1..], sep)
  }

  lemma {:induction false} SplitCount<T>(s: seq<T>, sep: T)
    ensures |SplitOn(s, sep)| == Count(s, sep) + 1
  {
    if s != [] {
      SplitCount(s[1..], sep);
    }
  }

  /** Splitting loses nothing: joining the pieces with the separator gives the input back,
      and no piece holds the separator. */
  lemma {:induction false} SplitJoin<T>(s: seq<T>, sep: T)
    ensures JoinOn(SplitOn(s, sep), sep) == s
    ensures forall p :: p in SplitOn(s, sep) ==> sep !in p
  {
    if s != [] {
      var rest := SplitOn(s[1..], sep);
      SplitJoin(s[1..], sep);
      if s[0] == sep {
        assert SplitOn(s, sep) == [[]] + rest;
        assert s == [sep] + s[1..];
      } else {
        assert SplitOn(s, sep) == [[s[0]] + rest[0]] + rest[1..];
        if |rest| == 1 {
          assert s == [s[0]] + rest[0];
        } else {
          assert JoinOn(rest, sep) == rest[0] + [sep] + JoinOn(rest[1..], sep);
          assert s == [s[0]] + (rest[0] + [sep] + JoinOn(rest[1..], sep));
        }
      }
    }
  }

  /** What `expand` returns: the pieces of each candidate, candidate by candidate. */
  function Expanded(candidates: seq<string>, sep: char): (r: seq<string>)
  {
    if candidates == [] then [] else SplitOn(candidates[0], sep) + Expanded(candidates[1..], sep)
  }

  lemma {:induction false} ExpandedAppend(candidates: seq<string>, c: string, sep: char)
    ensures Expanded(candidates + [c], sep) == Expanded(candidates, sep) + SplitOn(c, sep)
  {
    if candidates == [] {
      assert [] + [c] == [c];
      assert Expanded([c], sep) == SplitOn(c, sep) + Expanded([], sep);
    } else {
      assert (candidates + [c])[1..] == candidates[1..] + [c];
      ExpandedAppend(candidates[1..], c, sep);
    }
  }

  /** The number of separators over all candidates. */
  function Separators(candidates: seq<string>, sep: char): nat
  {
    if candidates == [] then 0 else Count(candidates[0], sep) + Separators(candidates[1..], sep)
  }

  /** Each candidate contributes one more element than it has separators. */
  lemma {:induction false} ExpandedLength(candidates: seq<string>, sep: char)
    ensures |Expanded(candidates, sep)| == Separators(candidates, sep) + |candidates|
  {
    if candidates != [] {
      SplitCount(candidates[0], sep);
      ExpandedLength(candidates[1..], sep);
    }
  }

  /** `expand`: the nested loop appending every piece of every candidate. */
  method Expand(candidates: seq<string>, sep: char) returns (expanded: seq<string>)
    ensures expanded == Expanded(candidates, sep)
  {
    expanded := [];
    for i := 0 to |candidates|
      invariant expanded == Expanded(candidates[..i], sep)
    {
      var pieces := SplitOn(candidates[i], sep);
      ghost var before := expanded;
      for j := 0 to |pieces|
        invariant expanded == before + pieces[..j]
      {
        expanded := expanded + [pieces[j]];
        assert pieces[..j + 1] == pieces[..j] + [pieces[j]];
      }
      assert pieces[..|pieces|] == pieces;
      assert candidates[..i + 1] == candidates[..i] + [candidates[i]];
      ExpandedAppend(candidates[..i], candidates[i], sep);
    }
    assert candidates[..|candidates|] == candidates;
  }

  /** The flags of the tool that shape a launch. */
  datatype Flags = Flags(task: string, container: string, cluster: string,
                         subnets: seq<string>, securityGroups: seq<string>,
                         launchType: string, publicIp: string,
                         mode: string, command: Bytes)

  /** `ecs.TaskOptions`. */
  datatype TaskOptions = TaskOptions(task: string, container: string, cluster: string,
                                     subnets: seq<string>, securityGroups: seq<string>,
                                     launchType: string, publicIp: string)

  /** The start-up checks: a missing command is fatal first; in `lambda` mode the subnet
      and security-group lists are split on ","; any mode but `cli` and `lambda` is fatal. */
  function Startup(f: Flags): (r: Result<TaskOptions, string>)
    ensures r.Ok? <==> f.command != [] && f.mode in {"cli", "lambda"}
    ensures f.command == [] ==> r == Err("Missing command")
    ensures r.Ok? ==>
              && r.value.subnets == (if f.mode == "lambda" then Expanded(f.subnets, ',') else f.subnets)
              && r.value.securityGroups == (if f.mode == "lambda" then Expanded(f.securityGroups, ',') else f.securityGroups)
              && r.value.task == f.task && r.value.container == f.container && r.value.cluster == f.cluster
              && r.value.launchType == f.launchType && r.value.publicIp == f.publicIp
  {
    if f.command == [] then Err("Missing command")
    else
      var lambda := f.mode == "lambda";
      var opts := TaskOptions(f.task, f.container, f.cluster,
                              if lambda then Expanded(f.subnets, ',') else f.subnets,
                              if lambda then Expanded(f.securityGroups, ',') else f.securityGroups,
                              f.launchType, f.publicIp);
      if f.mode == "cli" || lambda then Ok(opts) else Err("Unknown mode")
  }

  /** The start-up sequence, with `expand` run as the tool runs it. */
  method Setup(f: Flags) returns (r: Result<TaskOptions, string>)
    ensures r == Startup(f)
  {
    if f.command == [] {
      return Err("Missing command");
    }
    var subnets, groups := f.subnets, f.securityGroups;
    if f.mode == "lambda" {
      subnets := Expand(f.subnets, ',');
      groups := Expand(f.securityGroups, ',');
    }
    var opts := TaskOptions(f.task, f.container, f.cluster, subnets, groups, f.launchType, f.publicIp);
    if f.mode == "cli" || f.mode == "lambda" {
      return Ok(opts);
    }
    return Err("Unknown mode");
  }

  const Space: byte := 32

  /** The container command of `launchTask`: the formatted command split on single spaces.
      `format` is `fmt.Sprintf` applied to the command template and one argument. */
  function CommandLine(format: (Bytes, Bytes) -> Bytes, command: Bytes, arg: Bytes): (cmd: seq<Bytes>)
  {
    SplitOn(format(command, arg), Space)
  }

  /** The argument list holds the whole formatted command, cut at every space and nowhere
      else. */
  lemma CommandLineSplits(format: (Bytes, Bytes) -> Bytes, command: Bytes, arg: Bytes)
    ensures JoinOn(CommandLine(format, command, arg), Space) == format(command, arg)
    ensures forall p :: p in CommandLine(format, command, arg) ==> Space !in p
    ensures |CommandLine(format, command, arg)| == Count(format(command, arg), Space) + 1
  {
    SplitJoin(format(command, arg), Space);
    SplitCount(format(command, arg), Space);
  }

  /** One RunTask request. */
  datatype LaunchCall = LaunchCall(options: TaskOptions, command: seq<Bytes>)

  /** ECS, as far as the tool sees it: it records each launch and fails those in `failing`. */
  class EcsService {
    var launched: seq<LaunchCall>
    const failing: set<LaunchCall>

    constructor (failing: set<LaunchCall>)
      ensures this.failing == failing && launched == []
    {
      this.failing := failing;
      launched := [];
    }

    method RunTask(call: LaunchCall) returns (ok: bool)
      modifies this
      ensures launched == old(launched) + [call]
      ensures ok <==> call !in failing
    {
      launched := launched + [call];
      ok := call !in failing;
    }
  }

  /** `launchTask`: format the command, split it, and launch. */
  method LaunchTask(opts: TaskOptions, format: (Bytes, Bytes) -> Bytes, command: Bytes,
                    svc: EcsService, arg: Bytes) returns (ok: bool)
    modifies svc
    ensures svc.launched == old(svc.launched) + [LaunchCall(opts, CommandLine(format, command, arg))]
    ensures ok <==> LaunchCall(opts, CommandLine(format, command, arg)) !in svc.failing
  {
    var strCmd := format(command, arg);
    var cmd := SplitOn(strCmd, Space);
    ok := svc.RunTask(LaunchCall(opts, cmd));
  }

  /** The launches of the `cli` loop, one per argument, in order. */
  function CliCalls(opts: TaskOptions, format: (Bytes, Bytes) -> Bytes, command: Bytes, repos: seq<Bytes>)
    : (calls: seq<LaunchCall>)
    ensures |calls| == |repos|
  {
    if repos == [] then []
    else [LaunchCall(opts, CommandLine(format, command, repos[0]))] + CliCalls(opts, format, command, repos[1..])
  }

  /** The i-th launch runs the command line built for the i-th argument. */
  lemma {:induction false} CliCallAt(opts: TaskOptions, format: (Bytes, Bytes) -> Bytes, command: Bytes,
                                     repos: seq<Bytes>, i: nat)
    requires i < |repos|
    ensures CliCalls(opts, format, command, repos)[i] == LaunchCall(opts, CommandLine(format, command, repos[i]))
    decreases i
  {
    if i > 0 {
      CliCallAt(opts, format, command, repos[1..], i - 1);
    }
  }

  /** `cli` mode over the positional arguments left by parsing the tool's flag set: one
      launch per argument, in order; the first failed launch is fatal (its index is
      returned) and nothing after it is launched. */
  method Cli(opts: TaskOptions, format: (Bytes, Bytes) -> Bytes, command: Bytes,
             svc: EcsService, repos: seq<Bytes>) returns (fatal: Option<nat>)
    modifies svc
    ensures var calls := CliCalls(opts, format, command, repos);
            var n := FirstIn(calls, svc.failing);
            && (fatal == None <==> n == |repos|)
            && (fatal.Some? ==> fatal.value == n)
            && svc.launched == old(svc.launched) + Attempted(calls, svc.failing)
  {
    ghost var calls := CliCalls(opts, format, command, repos);
    ghost var n := FirstIn(calls, svc.failing);
    for i := 0 to |repos|
      invariant i <= n
      invariant svc.launched == old(svc.launched) + calls[..i]
    {
      CliCallAt(opts, format, command, repos, i);
      var ok := LaunchTask(opts, format, command, svc, repos[i]);
      assert calls[..i + 1] == calls[..i] + [calls[i]];
      if !ok {
        assert i == n;
        return Some(i);
      }
      assert i != n;
    }
    assert calls[..|repos|] == calls;
    return None;
  }

  /** The class `[a-zA-Z0-9\-_]`. */
  predicate IsTargetChar(c: byte)
  {
    (65 <= c <= 90) || (97 <= c <= 122) || (48 <= c <= 57) || c == 45 || c == 95
  }

  /** `^[a-zA-Z0-9\-_]+$`. */
  predicate IsTarget(t: Bytes)
  {
    |t| > 0 && forall i :: 0 <= i < |t| ==> IsTargetChar(t[i])
  }

  /** The target `string_handler` checks: the decoded payload when it has the base64 shape,
      otherwise the payload itself. Go's decoder does not fail on an input of that shape,
      so the handler's decode-error branch is never taken. */
  function HandlerTarget(payload: Bytes): (t: Bytes)
  {
    if Base64.IsShape(payload) then Base64.Decode(payload) else payload
  }

  const InvalidPayload := "Invalid payload"

  /** `string_handler`: launch with the target when it is a valid name, otherwise fail with
      "Invalid payload" and launch nothing. */
  method StringHandler(opts: TaskOptions, format: (Bytes, Bytes) -> Bytes, command: Bytes,
                       svc: EcsService, payload: Bytes) returns (err: Option<string>)
    modifies svc
    ensures !IsTarget(HandlerTarget(payload)) ==>
              err == Some(InvalidPayload) && svc.launched == old(svc.launched)
    ensures IsTarget(HandlerTarget(payload)) ==>
              var call := LaunchCall(opts, CommandLine(format, command, HandlerTarget(payload)));
              svc.launched == old(svc.launched) + [call] && (err == None <==> call !in svc.failing)
  {
    var target := payload;
    if Base64.IsShape(payload) {
      target := Base64.Decode(payload);
    }
    if !IsTarget(target) {
      return Some(InvalidPayload);
    }
    var ok := LaunchTask(opts, format, command, svc, target);
    if !ok {
      return Some("Failed to launch task");
    }
    return None;
  }

  /** The payload a Lambda dispatcher sends for a body is the JSON string of the body's
      base64 encoding; the runtime hands the handler that string, and the handler's target
      is the body again. So a valid repository name dispatched this way is launched as is. */
  lemma DispatchedTarget(body: Bytes)
    ensures Lambda.UnmarshalString(Lambda.Payload(body)) == Ok(Base64.Encode(body))
    ensures HandlerTarget(Base64.Encode(body)) == body
  {
    Lambda.PayloadRoundTrip(body);
  }

  /** An empty payload has the base64 shape, decodes to nothing, and so is invalid. */
  lemma EmptyPayloadInvalid()
    ensures !IsTarget(HandlerTarget([]))
  {
  }

  /** `flag.Args()` of Go's default flag set, which is empty until `flag.Parse` runs. The
      tool parses only its own flag set, and its `cli` loop ranges over this. */
  const UnparsedDefaultArgs: seq<Bytes> := []

  /** As written, the `cli` loop launches nothing, whatever positional arguments the tool
      was given, where one launch per argument was meant. */
  lemma CliAsWrittenLaunchesNothing(opts: TaskOptions, format: (Bytes, Bytes) -> Bytes, command: Bytes,
                                    positional: seq<Bytes>)
    requires positional != []
    ensures CliCalls(opts, format, command, UnparsedDefaultArgs) == []
    ensures CliCalls(opts, format, command, UnparsedDefaultArgs) != CliCalls(opts, format, command, positional)
  {
  }
}
