/**
 * The `dispatch-buffered` tool. It drains a bucket of buffered webhook messages.
 * Each object is sent to every configured Lambda function and then deleted. The
 * bucket is walked depth-first, one "/"-delimited level at a time. The first error
 * of any kind ends the walk and is fatal. In a dry run, each object's would-be
 * dispatches are logged; the walk of the level that holds the first object then stops.
 *
 * `DrainPrefix`/`DrainEntries` specify the walk as a function of the bucket's
 * contents, the fault plan and the Lambda service's refusals. `ListPrefix` and
 * `Process` are the walk itself, proved to do exactly that.
 */
module DispatchBuffered {
  import opened Common
  import opened Mailbox
  import opened Lambda

  /** A configured Lambda target: function name and invocation type. */
  datatype Dispatcher = Dispatcher(lambdaFunction: string, invocationType: string)

  /** `NewDispatcher`: the function is the URI's host. The AWS session for the `dsn`
      parameter is created first (`session` gives the session library's error, if any);
      then `invocation_type` follows the shared rule. */
  function NewDispatcher(uri: Uri, session: string -> Result<(), string>): (r: Result<Dispatcher, string>)
    ensures r.Ok? <==> session(Get(uri.query, "dsn")).Ok? && InvocationType(Get(uri.query, "invocation_type")).Ok?
    ensures session(Get(uri.query, "dsn")).Err? ==>
              r == Err("Failed to create new session, " + session(Get(uri.query, "dsn")).error)
    ensures session(Get(uri.query, "dsn")).Ok? && InvocationType(Get(uri.query, "invocation_type")).Err? ==>
              r == Err("Invalid invocation_type parameter")
    ensures r.Ok? ==> r.value.lambdaFunction == uri.host &&
                      r.value.invocationType == InvocationType(Get(uri.query, "invocation_type")).value
  {
    match session(Get(uri.query, "dsn"))
    case Err(e) => Err("Failed to create new session, " + e)
    case Ok(_) =>
      match InvocationType(Get(uri.query, "invocation_type"))
      case Err(e) => Err(e)
      case Ok(t) => Ok(Dispatcher(uri.host, t))
  }

  /** The invoke request a dispatcher sends for a body. */
  function Input(d: Dispatcher, body: Bytes): InvokeInput
  {
    InvokeInput(d.lambdaFunction, Payload(body), d.invocationType)
  }

  function Inputs(ds: seq<Dispatcher>, body: Bytes): (r: seq<InvokeInput>)
    ensures |r| == |ds| && forall i :: 0 <= i < |ds| ==> r[i] == Input(ds[i], body)
  {
    seq(|ds|, i requires 0 <= i < |ds| => Input(ds[i], body))
  }

  /** The index of the first dispatcher whose request the service refuses, or |ds|. */
  function FirstRefusal(ds: seq<Dispatcher>, failing: set<InvokeInput>, body: Bytes): (j: nat)
    ensures j <= |ds|
    ensures forall i :: 0 <= i < j ==> Input(ds[i], body) !in failing
    ensures j < |ds| ==> Input(ds[j], body) in failing
  {
    FirstIn(Inputs(ds, body), failing)
  }

  /** `Dispatcher.Dispatch`: a cancelled context makes it return nil without a request;
      otherwise it sends one request and fails when the service refuses it. */
  method Dispatch(d: Dispatcher, svc: LambdaService, cancelled: bool, body: Bytes)
    returns (err: Option<string>)
    modifies svc
    ensures cancelled ==> err == None && svc.calls == old(svc.calls)
    ensures !cancelled ==> svc.calls == old(svc.calls) + [Input(d, body)]
    ensures !cancelled ==> (err == None <==> Input(d, body) !in svc.failing)
  {
    if cancelled {
      return None;
    }
    var ok := svc.Invoke(Input(d, body));
    if !ok {
      return Some("Failed to invoke service (" + d.lambdaFunction + ")");
    }
    return None;
  }

  /** One dry-run log line: the body and the dispatcher it would go to. */
  datatype LogLine = LogLine(body: Bytes, target: Dispatcher)

  function DryLines(ds: seq<Dispatcher>, body: Bytes): (r: seq<LogLine>)
    ensures |r| == |ds| && forall i :: 0 <= i < |ds| ==> r[i] == LogLine(body, ds[i])
  {
    seq(|ds|, i requires 0 <= i < |ds| => LogLine(body, ds[i]))
  }

  /** Everything a drain depends on besides the bucket's contents. */
  datatype Config = Config(dryrun: bool, cancelled: bool, dispatchers: seq<Dispatcher>,
                           faults: Faults, failing: set<InvokeInput>)

  /** The outcome of draining part of the bucket. `store` is the bucket afterwards,
      `calls` the requests sent, `trace` the dry-run log, `done` the keys dispatched and
      deleted, `logged` the keys logged in a dry run, and `err` the error that ended it. */
  datatype Run = Run(store: Store, calls: seq<InvokeInput>, trace: seq<LogLine>,
                     done: seq<string>, logged: seq<string>, err: Option<DrainError>)

  function Idle(s: Store): Run
  {
    Run(s, [], [], [], [], None)
  }

  function Halt(s: Store, e: DrainError): Run
  {
    Run(s, [], [], [], [], Some(e))
  }

  /** `a` followed by `b`, where `b` starts from the store `a` left. */
  function Then(a: Run, b: Run): Run
  {
    Run(b.store, a.calls + b.calls, a.trace + b.trace, a.done + b.done, a.logged + b.logged, b.err)
  }

  /** Processing one object: open and read it; in a dry run log one line per dispatcher;
      otherwise dispatch to each in order, stopping at the first failure, and then delete it. */
  function Leaf(c: Config, s: Store, key: string): (r: Run)
    ensures MaxLen(r.store.keys) <= MaxLen(s.keys)
  {
    match ReadObject(c.faults, s, key)
    case Err(e) => Halt(s, e)
    case Ok(body) =>
      if c.dryrun then Run(s, [], DryLines(c.dispatchers, body), [], [key], None)
      else
        var j := FirstRefusal(c.dispatchers, c.failing, body);
        if !c.cancelled && j < |c.dispatchers| then
          Run(s, Inputs(c.dispatchers[..j + 1], body), [], [], [], Some(DispatchFailed(key, j)))
        else
          var calls := if c.cancelled then [] else Inputs(c.dispatchers, body);
          if key in c.faults.removeFails then Run(s, calls, [], [], [], Some(RemoveFailed(key)))
          else Run(Remove(s, key), calls, [], [key], [], None)
  }

  /** The entries are children of `prefix`, at most `bound` long, and a common prefix is
      longer than `prefix`. */
  predicate Children(es: seq<Entry>, prefix: string, bound: nat)
  {
    es == [] ||
    (prefix <= es[0].key && |es[0].key| <= bound && (es[0].isDir ==> |prefix| < |es[0].key|) &&
     Children(es[1..], prefix, bound))
  }

  lemma {:induction false} ChildAt(es: seq<Entry>, prefix: string, bound: nat, i: nat)
    requires Children(es, prefix, bound) && i < |es|
    ensures prefix <= es[i].key && |es[i].key| <= bound && (es[i].isDir ==> |prefix| < |es[i].key|)
  {
    if i > 0 {
      ChildAt(es[1..], prefix, bound, i - 1);
    }
  }

  lemma {:induction false} ChildrenOfAll(es: seq<Entry>, prefix: string, bound: nat)
    requires forall e :: e in es ==> prefix <= e.key && |e.key| <= bound && (e.isDir ==> |prefix| < |e.key|)
    ensures Children(es, prefix, bound)
  {
    if es != [] {
      assert es[0] in es;
      ChildrenOfAll(es[1..], prefix, bound);
    }
  }

  lemma ListingChildren(keys: seq<string>, prefix: string, bound: nat)
    requires Bounded(keys, bound)
    ensures Children(Listing(keys, prefix), prefix, bound)
  {
    ListingMembers(keys, prefix);
    MaxLenBounds(keys);
    var es := Listing(keys, prefix);
    forall e | e in es
      ensures prefix <= e.key && |e.key| <= bound && (e.isDir ==> |prefix| < |e.key|)
    {
      var k :| k in keys && prefix <= k && ChildOf(prefix, k) == e;
    }
    ChildrenOfAll(es, prefix, bound);
  }

  /** The closure `list` on `prefix`: the walk of the listing taken now. */
  function DrainPrefix(c: Config, s: Store, prefix: string, bound: nat): (r: Run)
    requires |prefix| <= bound && Bounded(s.keys, bound)
    ensures MaxLen(r.store.keys) <= MaxLen(s.keys)
    decreases bound - |prefix| + 1, 2, 0
  {
    ListingChildren(s.keys, prefix, bound);
    DrainEntries(c, s, prefix, Listing(s.keys, prefix), 0, bound)
  }

  /** The loop of `list` from entry `i` on. `Next` fails when the fault plan says so;
      the end of the listing ends the loop without error; otherwise the entry is
      visited. Any error ends the loop, and so does a dry-run object. */
  function DrainEntries(c: Config, s: Store, prefix: string, es: seq<Entry>, i: nat, bound: nat): (r: Run)
    requires i <= |es| && |prefix| <= bound && Bounded(s.keys, bound) && Children(es, prefix, bound)
    ensures MaxLen(r.store.keys) <= MaxLen(s.keys)
    decreases bound - |prefix| + 1, 1, |es| - i
  {
    if prefix in c.faults.listFails && c.faults.listFails[prefix] == i then Halt(s, IterateFailed(prefix))
    else if i == |es| then Idle(s)
    else
      ChildAt(es, prefix, bound, i);
      var r := Visit(c, s, es[i], bound);
      if r.err.Some? || (c.dryrun && !es[i].isDir) then r
      else Then(r, DrainEntries(c, r.store, prefix, es, i + 1, bound))
  }

  /** Visiting one entry of a listing: walk a common prefix recursively, or process an object. */
  function Visit(c: Config, s: Store, e: Entry, bound: nat): (r: Run)
    requires |e.key| <= bound && Bounded(s.keys, bound)
    ensures MaxLen(r.store.keys) <= MaxLen(s.keys)
    decreases if e.isDir then bound - |e.key| + 1 else 0, 3, 0
  {
    if e.isDir then DrainPrefix(c, s, e.key, bound) else Leaf(c, s, e.key)
  }

  /** `process`: the walk from the empty prefix. */
  function Drain(c: Config, s: Store): Run
  {
    DrainPrefix(c, s, "", MaxLen(s.keys))
  }

  lemma ThenIdle(r: Run)
    ensures Then(Idle(r.store), r) == r
  {
  }

  lemma ThenAssoc(a: Run, b: Run, d: Run)
    ensures Then(Then(a, b), d) == Then(a, Then(b, d))
  {
  }

  /** The configuration a bucket and a service stand for. */
  function ConfigOf(dryrun: bool, cancelled: bool, ds: seq<Dispatcher>, bucket: Bucket,
                    svc: LambdaService): Config
    reads bucket, svc
  {
    Config(dryrun, cancelled, ds, bucket.faults, svc.failing)
  }

  /** The dispatch loop for one body: every dispatcher in order, stopping at the first
      failure. `failed` is the index of the dispatcher that failed. */
  method DispatchAll(svc: LambdaService, cancelled: bool, ds: seq<Dispatcher>, body: Bytes)
    returns (failed: Option<nat>)
    modifies svc
    ensures cancelled ==> failed == None && svc.calls == old(svc.calls)
    ensures !cancelled ==>
      var j := FirstRefusal(ds, svc.failing, body);
      failed == (if j < |ds| then Some(j) else None) &&
      svc.calls == old(svc.calls) + Inputs(ds[..if j < |ds| then j + 1 else j], body)
  {
    for j := 0 to |ds|
      invariant svc.calls == old(svc.calls) + (if cancelled then [] else Inputs(ds[..j], body))
      invariant !cancelled ==> forall i :: 0 <= i < j ==> Input(ds[i], body) !in svc.failing
    {
      var err := Dispatch(ds[j], svc, cancelled, body);
      assert Inputs(ds[..j], body) + [Input(ds[j], body)] == Inputs(ds[..j + 1], body);
      if err.Some? {
        return Some(j);
      }
    }
    return None;
  }

  /** The body of `list`'s loop for an object: open and read it, then log it (dry run)
      or dispatch it to every dispatcher in order and delete it. */
  method ProcessObject(bucket: Bucket, svc: LambdaService, dryrun: bool, cancelled: bool,
                       ds: seq<Dispatcher>, key: string)
    returns (err: Option<DrainError>, lines: seq<LogLine>)
    modifies bucket, svc
    ensures var l := Leaf(ConfigOf(dryrun, cancelled, ds, bucket, svc), old(bucket.Contents()), key);
            bucket.Contents() == l.store && svc.calls == old(svc.calls) + l.calls &&
            lines == l.trace && err == l.err
  {
    lines := [];
    var read := bucket.Read(key);
    if read.Err? {
      return Some(read.error), lines;
    }
    var body := read.value;
    if dryrun {
      for j := 0 to |ds|
        invariant lines == DryLines(ds[..j], body)
      {
        lines := lines + [LogLine(body, ds[j])];
      }
      return None, lines;
    }
    var failed := DispatchAll(svc, cancelled, ds, body);
    if failed.Some? {
      return Some(DispatchFailed(key, failed.value)), lines;
    }
    var ok := bucket.Delete(key);
    if !ok {
      return Some(RemoveFailed(key)), lines;
    }
    err := None;
  }

  /** A turn of `list`'s loop that yields entry `pos`: the rest of the walk is the visit
      of that entry, followed, unless the visit ends the loop, by the walk from the next. */
  lemma Advance(c: Config, s: Store, prefix: string, es: seq<Entry>, pos: nat, bound: nat,
                goal: Run, acc: Run)
    requires pos < |es| && |prefix| <= bound && Bounded(s.keys, bound) && Children(es, prefix, bound)
    requires !(prefix in c.faults.listFails && c.faults.listFails[prefix] == pos)
    requires goal == Then(acc, DrainEntries(c, s, prefix, es, pos, bound))
    ensures |es[pos].key| <= bound && (es[pos].isDir ==> |prefix| < |es[pos].key|)
    ensures var v := Visit(c, s, es[pos], bound);
            if v.err.Some? || (c.dryrun && !es[pos].isDir) then goal == Then(acc, v)
            else Bounded(v.store.keys, bound) &&
                 goal == Then(Then(acc, v), DrainEntries(c, v.store, prefix, es, pos + 1, bound))
  {
    ChildAt(es, prefix, bound, pos);
    var v := Visit(c, s, es[pos], bound);
    if !(v.err.Some? || (c.dryrun && !es[pos].isDir)) {
      ThenAssoc(acc, v, DrainEntries(c, v.store, prefix, es, pos + 1, bound));
    }
  }

  /** The loop body of `list` for one entry: recurse into a common prefix, or process
      an object. */
  method VisitEntry(bucket: Bucket, svc: LambdaService, dryrun: bool, cancelled: bool,
                    ds: seq<Dispatcher>, e: Entry, ghost bound: nat)
    returns (err: Option<DrainError>, trace: seq<LogLine>)
    requires |e.key| <= bound && Bounded(bucket.keys, bound)
    modifies bucket, svc
    ensures var r := Visit(ConfigOf(dryrun, cancelled, ds, bucket, svc), old(bucket.Contents()), e, bound);
            bucket.Contents() == r.store && svc.calls == old(svc.calls) + r.calls &&
            trace == r.trace && err == r.err
    decreases if e.isDir then bound - |e.key| + 1 else 0, 3
  {
    if e.isDir {
      err, trace := ListPrefix(bucket, svc, dryrun, cancelled, ds, e.key, bound);
    } else {
      err, trace := ProcessObject(bucket, svc, dryrun, cancelled, ds, e.key);
    }
  }

  /** The state of `list`'s loop: `acc` is what the entries before the iterator's
      position did, and the walk of the rest completes it to `goal`. */
  ghost predicate Walking(c: Config, bucket: Bucket, svc: LambdaService, it: ListIterator,
                          prefix: string, es: seq<Entry>, bound: nat, goal: Run, acc: Run,
                          calls0: seq<InvokeInput>, trace: seq<LogLine>)
    reads bucket, svc, it
  {
    && it.entries == es && it.pos <= |es| && Children(es, prefix, bound) && |prefix| <= bound
    && it.failAt == (if prefix in c.faults.listFails then Some(c.faults.listFails[prefix]) else None)
    && Bounded(bucket.keys, bound)
    && acc.err == None && acc.store == bucket.Contents()
    && svc.calls == calls0 + acc.calls && trace == acc.trace
    && goal == Then(acc, DrainEntries(c, bucket.Contents(), prefix, es, it.pos, bound))
  }

  /** One turn of `list`'s loop: `Next`, then the entry it yields. `stop` says the loop
      ends here, with `goal`'s outcome. */
  method Turn(bucket: Bucket, svc: LambdaService, dryrun: bool, cancelled: bool,
              ds: seq<Dispatcher>, it: ListIterator, prefix: string, trace0: seq<LogLine>,
              ghost bound: nat, ghost es: seq<Entry>, ghost goal: Run, ghost acc: Run,
              ghost calls0: seq<InvokeInput>)
    returns (stop: bool, err: Option<DrainError>, trace: seq<LogLine>, ghost acc': Run)
    requires Walking(ConfigOf(dryrun, cancelled, ds, bucket, svc), bucket, svc, it, prefix, es,
                     bound, goal, acc, calls0, trace0)
    modifies bucket, svc, it
    ensures !stop ==> it.pos > old(it.pos) &&
                      Walking(ConfigOf(dryrun, cancelled, ds, bucket, svc), bucket, svc, it, prefix,
                              es, bound, goal, acc', calls0, trace)
    ensures stop ==> bucket.Contents() == goal.store && svc.calls == calls0 + goal.calls &&
                     trace == goal.trace && err == goal.err
    decreases bound - |prefix| + 1, 1
  {
    ghost var c := ConfigOf(dryrun, cancelled, ds, bucket, svc);
    ghost var pos := it.pos;
    acc' := acc;
    var next := it.Next();
    match next
    case IterError =>
      return true, Some(IterateFailed(prefix)), trace0, acc';
    case Done =>
      return true, None, trace0, acc';
    case Item(e) =>
      Advance(c, bucket.Contents(), prefix, es, pos, bound, goal, acc);
      ghost var v := Visit(c, bucket.Contents(), e, bound);
      var sub, tr := VisitEntry(bucket, svc, dryrun, cancelled, ds, e, bound);
      AppendAssoc(calls0, acc.calls, v.calls);
      if sub.Some? || (dryrun && !e.isDir) {
        return true, sub, trace0 + tr, acc';
      }
      acc' := Then(acc, v);
      return false, None, trace0 + tr, acc';
  }

  /** The closure `list`. It walks the listing of `prefix` and recurses into each common
      prefix. It ends in the store, requests, trace and error `DrainPrefix` specifies. */
  method ListPrefix(bucket: Bucket, svc: LambdaService, dryrun: bool, cancelled: bool,
                    ds: seq<Dispatcher>, prefix: string, ghost bound: nat)
    returns (err: Option<DrainError>, trace: seq<LogLine>)
    requires |prefix| <= bound && Bounded(bucket.keys, bound)
    modifies bucket, svc
    ensures var r := DrainPrefix(ConfigOf(dryrun, cancelled, ds, bucket, svc), old(bucket.Contents()), prefix, bound);
            bucket.Contents() == r.store && svc.calls == old(svc.calls) + r.calls &&
            trace == r.trace && err == r.err
    decreases bound - |prefix| + 1, 2
  {
    ghost var c := ConfigOf(dryrun, cancelled, ds, bucket, svc);
    ghost var s0 := bucket.Contents();
    var it := bucket.List(prefix);
    ghost var es := it.entries;
    ListingChildren(s0.keys, prefix, bound);
    ghost var goal := DrainEntries(c, s0, prefix, es, 0, bound);
    ghost var acc := Idle(s0);
    ThenIdle(goal);
    trace := [];
    var stop := false;
    err := None;
    while !stop
      invariant !stop ==> Walking(c, bucket, svc, it, prefix, es, bound, goal, acc, old(svc.calls), trace)
      invariant stop ==> bucket.Contents() == goal.store && svc.calls == old(svc.calls) + goal.calls &&
                         trace == goal.trace && err == goal.err
      decreases !stop, |es| - it.pos
    {
      stop, err, trace, acc := Turn(bucket, svc, dryrun, cancelled, ds, it, prefix, trace, bound,
                                    es, goal, acc, old(svc.calls));
    }
  }

  /** How `process` ends: nil, or the fatal error `log.Fatalf` reports. */
  datatype Exit = Completed | Fatal(err: DrainError)

  /** `process`: drain the whole bucket; an error is fatal. */
  method Process(bucket: Bucket, svc: LambdaService, dryrun: bool, cancelled: bool, ds: seq<Dispatcher>)
    returns (exit: Exit, trace: seq<LogLine>)
    modifies bucket, svc
    ensures var r := Drain(ConfigOf(dryrun, cancelled, ds, bucket, svc), old(bucket.Contents()));
            bucket.Contents() == r.store && svc.calls == old(svc.calls) + r.calls && trace == r.trace &&
            exit == if r.err.Some? then Fatal(r.err.value) else Completed
  {
    var err;
    err, trace := ListPrefix(bucket, svc, dryrun, cancelled, ds, "", MaxLen(bucket.keys));
    exit := if err.Some? then Fatal(err.value) else Completed;
  }
}
