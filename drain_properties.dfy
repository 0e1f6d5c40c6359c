/**
 * What a drain of the buffered-message bucket does, proved about the specification
 * `DispatchBuffered.Drain` (which `DispatchBuffered.Process` is proved to follow).
 *
 * The central fact is `Accounted`: the keys a walk completes are distinct keys of the
 * bucket under the walked prefix; the bucket afterwards is the bucket with exactly
 * those keys deleted; a non-dry walk sent each completed key's body to every
 * dispatcher in order, key after key, plus the requests of the object it failed on;
 * a dry run deleted and sent nothing and only logged; and the object an error names
 * is still in the bucket.
 */
module DrainProperties {
  import opened Common
  import opened Mailbox
  import opened Lambda
  import opened DispatchBuffered

  /** The store with the given keys deleted one after another. */
  function RemoveAll(s: Store, ks: seq<string>): (r: Store)
    decreases |ks|
  {
    if ks == [] then s else RemoveAll(Remove(s, ks[0]), ks[1..])
  }

  /** Deleting keys one after another deletes exactly those keys. */
  lemma {:induction false} RemoveAllDeletes(s: Store, ks: seq<string>)
    ensures RemoveAll(s, ks).objects == s.objects - ToSet(ks)
    ensures RemoveAll(s, ks).keys == Drop(s.keys, ToSet(ks))
    decreases |ks|
  {
    if ks == [] {
      DropNothing(s.keys);
      assert ToSet(ks) == {};
      assert s.objects - {} == s.objects;
    } else {
      RemoveAllDeletes(Remove(s, ks[0]), ks[1..]);
      DropDrop(s.keys, {ks[0]}, ToSet(ks[1..]));
      assert ToSet(ks) == {ks[0]} + ToSet(ks[1..]);
    }
  }

  lemma {:induction false} RemoveAllAppend(s: Store, a: seq<string>, b: seq<string>)
    ensures RemoveAll(s, a + b) == RemoveAll(RemoveAll(s, a), b)
    decreases |a|
  {
    if a == [] {
      assert a + b == b;
    } else {
      assert (a + b)[1..] == a[1..] + b;
      RemoveAllAppend(Remove(s, a[0]), a[1..], b);
    }
  }

  lemma {:induction false} RemoveAllValid(s: Store, ks: seq<string>)
    requires Valid(s)
    ensures Valid(RemoveAll(s, ks))
    decreases |ks|
  {
    if ks != [] {
      RemoveValid(s, ks[0]);
      RemoveAllValid(Remove(s, ks[0]), ks[1..]);
    }
  }

  /** The requests a non-dry walk sends for the keys it completes: each key's body to
      every dispatcher in order, key after key; none under a cancelled context. */
  function SentFor(c: Config, objects: map<string, Bytes>, done: seq<string>): (r: seq<InvokeInput>)
    requires forall k :: k in done ==> k in objects
  {
    if done == [] then []
    else (if c.cancelled then [] else Inputs(c.dispatchers, objects[done[0]])) + SentFor(c, objects, done[1..])
  }

  lemma {:induction false} SentForAppend(c: Config, objects: map<string, Bytes>, a: seq<string>, b: seq<string>)
    requires forall k :: k in a + b ==> k in objects
    ensures SentFor(c, objects, a + b) == SentFor(c, objects, a) + SentFor(c, objects, b)
  {
    if a == [] {
      assert a + b == b;
    } else {
      assert (a + b)[1..] == a[1..] + b;
      SentForAppend(c, objects, a[1..], b);
      AppendAssoc(if c.cancelled then [] else Inputs(c.dispatchers, objects[a[0]]),
                  SentFor(c, objects, a[1..]), SentFor(c, objects, b));
    }
  }

  /** Only the bodies of the completed keys matter. */
  lemma {:induction false} SentForAgree(c: Config, o1: map<string, Bytes>, o2: map<string, Bytes>, done: seq<string>)
    requires forall k :: k in done ==> k in o1 && k in o2 && o1[k] == o2[k]
    ensures SentFor(c, o1, done) == SentFor(c, o2, done)
  {
    if done != [] {
      SentForAgree(c, o1, o2, done[1..]);
    }
  }

  /** The requests of the object a walk failed on: up to and including the refusing
      dispatcher, or all of them when the delete failed. */
  function Pending(c: Config, objects: map<string, Bytes>, err: Option<DrainError>): seq<InvokeInput>
  {
    match err
    case Some(DispatchFailed(k, j)) =>
      if k in objects && j < |c.dispatchers| then Inputs(c.dispatchers[..j + 1], objects[k]) else []
    case Some(RemoveFailed(k)) =>
      if k in objects && !c.cancelled then Inputs(c.dispatchers, objects[k]) else []
    case _ => []
  }

  /** The dry-run log of the logged keys: one line per dispatcher for each. */
  function DryTrace(ds: seq<Dispatcher>, objects: map<string, Bytes>, logged: seq<string>): (r: seq<LogLine>)
    requires forall k :: k in logged ==> k in objects
  {
    if logged == [] then [] else DryLines(ds, objects[logged[0]]) + DryTrace(ds, objects, logged[1..])
  }

  lemma {:induction false} DryTraceAppend(ds: seq<Dispatcher>, objects: map<string, Bytes>, a: seq<string>, b: seq<string>)
    requires forall k :: k in a + b ==> k in objects
    ensures DryTrace(ds, objects, a + b) == DryTrace(ds, objects, a) + DryTrace(ds, objects, b)
  {
    if a == [] {
      assert a + b == b;
    } else {
      assert (a + b)[1..] == a[1..] + b;
      DryTraceAppend(ds, objects, a[1..], b);
      AppendAssoc(DryLines(ds, objects[a[0]]), DryTrace(ds, objects, a[1..]), DryTrace(ds, objects, b));
    }
  }

  /** The object an error names is still in the bucket. A dispatch failure names the
      first dispatcher the service refused and happens only under a live context. */
  predicate Kept(c: Config, s: Store, p: string, r: Run)
  {
    match r.err
    case Some(ReadFailed(k)) => k in s.objects && k in r.store.objects && p <= k
    case Some(DispatchFailed(k, j)) =>
      k in s.objects && k in r.store.objects && p <= k && !c.cancelled &&
      j < |c.dispatchers| && j == FirstRefusal(c.dispatchers, c.failing, s.objects[k])
    case Some(RemoveFailed(k)) => k in s.objects && k in r.store.objects && p <= k
    case _ => true
  }

  /** The completed keys are distinct keys of `s` under `p`, and exactly they are gone. */
  predicate Books(s: Store, p: string, r: Run)
  {
    && Distinct(r.done)
    && (forall k :: k in r.done ==> k in s.objects && p <= k)
    && r.store == RemoveAll(s, r.done)
    && (forall k :: k in r.logged ==> k in s.objects && p <= k)
  }

  /** A dry run completes nothing, sends nothing and logs one line per dispatcher for each
      logged object. */
  predicate DryRun(c: Config, s: Store, r: Run)
    requires forall k :: k in r.logged ==> k in s.objects
  {
    c.dryrun ==> r.done == [] && r.calls == [] && r.trace == DryTrace(c.dispatchers, s.objects, r.logged)
  }

  /** A live run logs nothing and sends the completed keys' requests, then those of the
      object it failed on. */
  predicate LiveRun(c: Config, s: Store, r: Run)
    requires forall k :: k in r.done ==> k in s.objects
  {
    !c.dryrun ==> r.logged == [] && r.trace == [] &&
                  r.calls == SentFor(c, s.objects, r.done) + Pending(c, s.objects, r.err)
  }

  /** What a walk of prefix `p` from store `s` did, in terms of its completed and logged keys. */
  predicate Accounted(c: Config, s: Store, p: string, r: Run)
  {
    Books(s, p, r) && DryRun(c, s, r) && LiveRun(c, s, r) && Kept(c, s, p, r)
  }

  lemma LeafAccounted(c: Config, s: Store, key: string)
    ensures Accounted(c, s, key, Leaf(c, s, key))
  {
    var r := Leaf(c, s, key);
    if ReadObject(c.faults, s, key).Ok? {
      var body := s.objects[key];
      if c.dryrun {
        assert DryTrace(c.dispatchers, s.objects, [key]) == DryLines(c.dispatchers, body) + [];
      } else if r.done == [key] {
        assert SentFor(c, s.objects, [key]) == r.calls + [];
      }
    }
  }

  lemma {:induction false} DistinctAppend<T>(a: seq<T>, b: seq<T>)
    requires Distinct(a) && Distinct(b) && forall x :: x in a ==> x !in b
    ensures Distinct(a + b)
  {
    forall i, j | 0 <= i < j < |a + b|
      ensures (a + b)[i] != (a + b)[j]
    {
      if j >= |a| && i < |a| {
        assert (a + b)[i] in a && (a + b)[j] in b;
      }
    }
  }

  /** The store after a walk agrees with the store before it on every key it still has. */
  lemma BooksShrink(s: Store, p: string, r: Run)
    requires Books(s, p, r)
    ensures forall k :: k in r.store.objects ==> k in s.objects && r.store.objects[k] == s.objects[k]
    ensures forall k :: k in r.done ==> k !in r.store.objects
  {
    RemoveAllDeletes(s, r.done);
  }

  lemma ThenBooks(s: Store, p: string, r1: Run, r2: Run)
    requires Books(s, p, r1) && Books(r1.store, p, r2)
    ensures Books(s, p, Then(r1, r2))
  {
    BooksShrink(s, p, r1);
    DistinctAppend(r1.done, r2.done);
    RemoveAllAppend(s, r1.done, r2.done);
  }

  lemma ThenDry(c: Config, s: Store, p: string, r1: Run, r2: Run)
    requires Books(s, p, r1) && Books(r1.store, p, r2) && Books(s, p, Then(r1, r2))
    requires DryRun(c, s, r1) && DryRun(c, r1.store, r2)
    ensures DryRun(c, s, Then(r1, r2))
  {
    if c.dryrun {
      DryTraceAppend(c.dispatchers, s.objects, r1.logged, r2.logged);
    }
  }

  lemma JoinCalls<T>(a: seq<T>, b: seq<T>, q: seq<T>)
    ensures (a + []) + (b + q) == (a + b) + q
  {
  }

  lemma ThenLive(c: Config, o: map<string, Bytes>, o1: map<string, Bytes>, r1: Run, r2: Run)
    requires !c.dryrun && r1.err == None
    requires forall k :: k in o1 ==> k in o && o1[k] == o[k]
    requires forall k :: k in r1.done ==> k in o
    requires forall k :: k in r2.done ==> k in o1
    requires r1.calls == SentFor(c, o, r1.done) + Pending(c, o, None)
    requires r2.calls == SentFor(c, o1, r2.done) + Pending(c, o1, r2.err)
    requires Pending(c, o1, r2.err) == Pending(c, o, r2.err)
    ensures Then(r1, r2).calls == SentFor(c, o, r1.done + r2.done) + Pending(c, o, r2.err)
  {
    var a, b, q := SentFor(c, o, r1.done), SentFor(c, o, r2.done), Pending(c, o, r2.err);
    SentForAgree(c, o1, o, r2.done);
    SentForAppend(c, o, r1.done, r2.done);
    assert Pending(c, o, None) == [];
    JoinCalls(a, b, q);
  }

  lemma ThenKept(c: Config, s: Store, p: string, r1: Run, r2: Run)
    requires Books(s, p, r1) && Kept(c, r1.store, p, r2)
    ensures Kept(c, s, p, Then(r1, r2))
  {
    BooksShrink(s, p, r1);
  }

  /** A walk that ends without error followed by a walk from where it left off. */
  lemma ThenAccounted(c: Config, s: Store, p: string, r1: Run, r2: Run)
    requires Accounted(c, s, p, r1) && r1.err == None && Accounted(c, r1.store, p, r2)
    ensures Accounted(c, s, p, Then(r1, r2))
  {
    ThenBooks(s, p, r1, r2);
    ThenDry(c, s, p, r1, r2);
    ThenKept(c, s, p, r1, r2);
    if !c.dryrun {
      BooksShrink(s, p, r1);
      assert Pending(c, r1.store.objects, r2.err) == Pending(c, s.objects, r2.err);
      ThenLive(c, s.objects, r1.store.objects, r1, r2);
    }
  }

  lemma PrefixTrans(p: string, q: string, k: string)
    requires p <= q && q <= k
    ensures p <= k
  {
    assert k[..|p|] == q[..|p|];
  }

  /** What a walk below `q` accounts for it also accounts for below any prefix of `q`. */
  lemma Widen(c: Config, s: Store, p: string, q: string, r: Run)
    requires p <= q && Accounted(c, s, q, r)
    ensures Accounted(c, s, p, r)
  {
    forall k | k in r.done || k in r.logged
      ensures p <= k
    {
      PrefixTrans(p, q, k);
    }
    match r.err
    case Some(ReadFailed(k)) => PrefixTrans(p, q, k);
    case Some(DispatchFailed(k, _)) => PrefixTrans(p, q, k);
    case Some(RemoveFailed(k)) => PrefixTrans(p, q, k);
    case _ =>
  }

  lemma {:induction false} PrefixAccounted(c: Config, s: Store, p: string, bound: nat)
    requires |p| <= bound && Bounded(s.keys, bound)
    ensures Accounted(c, s, p, DrainPrefix(c, s, p, bound))
    decreases bound - |p| + 1, 2, 0
  {
    ListingChildren(s.keys, p, bound);
    EntriesAccounted(c, s, p, Listing(s.keys, p), 0, bound);
  }

  lemma {:induction false} EntriesAccounted(c: Config, s: Store, p: string, es: seq<Entry>, i: nat, bound: nat)
    requires i <= |es| && |p| <= bound && Bounded(s.keys, bound) && Children(es, p, bound)
    ensures Accounted(c, s, p, DrainEntries(c, s, p, es, i, bound))
    decreases bound - |p| + 1, 1, |es| - i
  {
    if p in c.faults.listFails && c.faults.listFails[p] == i {
    } else if i == |es| {
    } else {
      ChildAt(es, p, bound, i);
      var e := es[i];
      var r := Visit(c, s, e, bound);
      VisitAccounted(c, s, e, bound);
      Widen(c, s, p, e.key, r);
      if !(r.err.Some? || (c.dryrun && !e.isDir)) {
        EntriesAccounted(c, r.store, p, es, i + 1, bound);
        ThenAccounted(c, s, p, r, DrainEntries(c, r.store, p, es, i + 1, bound));
      }
    }
  }

  lemma {:induction false} VisitAccounted(c: Config, s: Store, e: Entry, bound: nat)
    requires |e.key| <= bound && Bounded(s.keys, bound)
    ensures Accounted(c, s, e.key, Visit(c, s, e, bound))
    decreases if e.isDir then bound - |e.key| + 1 else 0, 3, 0
  {
    if e.isDir {
      PrefixAccounted(c, s, e.key, bound);
    } else {
      LeafAccounted(c, s, e.key);
    }
  }

  /** A leaf completes or logs its own key or nothing. */
  lemma LeafDone(c: Config, s: Store, key: string)
    ensures Leaf(c, s, key).done == [] || Leaf(c, s, key).done == [key]
    ensures |Leaf(c, s, key).logged| <= 1
    ensures c.dryrun && Leaf(c, s, key).err == None ==> Leaf(c, s, key).logged == [key]
    ensures !c.dryrun && Leaf(c, s, key).err == None ==> Leaf(c, s, key).done == [key]
  {
  }

  /** The entries of a listing of `p` are distinct, and each is the entry its own key shows. */
  predicate Listed(p: string, es: seq<Entry>)
  {
    Distinct(es) && forall e :: e in es ==> p <= e.key && ChildOf(p, e.key) == e
  }

  lemma ListingListed(keys: seq<string>, p: string)
    ensures Listed(p, Listing(keys, p))
  {
    ListingMembers(keys, p);
    forall e | e in Listing(keys, p)
      ensures p <= e.key && ChildOf(p, e.key) == e
    {
      var k :| k in keys && p <= k && ChildOf(p, k) == e;
      ChildOfIdem(p, k);
    }
  }

  /** A live walk of a prefix that ends without error has completed every key under it. */
  lemma {:induction false} PrefixCovers(c: Config, s: Store, p: string, bound: nat)
    requires Valid(s) && |p| <= bound && Bounded(s.keys, bound) && !c.dryrun
    requires DrainPrefix(c, s, p, bound).err == None
    ensures forall k :: k in s.objects && p <= k ==> k in DrainPrefix(c, s, p, bound).done
    decreases bound - |p| + 1, 2, 0
  {
    var es := Listing(s.keys, p);
    ListingChildren(s.keys, p, bound);
    ListingListed(s.keys, p);
    ListingMembers(s.keys, p);
    EntriesCover(c, s, p, es, 0, bound);
    assert es[0..] == es;
  }

  lemma {:induction false} EntriesCover(c: Config, s: Store, p: string, es: seq<Entry>, i: nat, bound: nat)
    requires Valid(s) && i <= |es| && |p| <= bound && Bounded(s.keys, bound) && Children(es, p, bound)
    requires Listed(p, es) && !c.dryrun
    requires DrainEntries(c, s, p, es, i, bound).err == None
    ensures forall k :: k in s.objects && p <= k && ChildOf(p, k) in es[i..] ==>
                          k in DrainEntries(c, s, p, es, i, bound).done
    decreases bound - |p| + 1, 1, |es| - i
  {
    if i < |es| {
      ChildAt(es, p, bound, i);
      var e := es[i];
      var r := Visit(c, s, e, bound);
      var rest := DrainEntries(c, r.store, p, es, i + 1, bound);
      VisitCovers(c, s, e, bound);
      VisitAccounted(c, s, e, bound);
      RemoveAllValid(s, r.done);
      RemoveAllDeletes(s, r.done);
      EntriesCover(c, r.store, p, es, i + 1, bound);
      forall k | k in s.objects && p <= k && ChildOf(p, k) in es[i..]
        ensures k in r.done + rest.done
      {
        if ChildOf(p, k) != e {
          if k in r.done {
            if e.isDir {
              ChildOfBelowDir(p, e.key, k);
            } else {
              LeafDone(c, s, e.key);
            }
          }
          assert ChildOf(p, k) in es[i + 1..];
        }
      }
    }
  }

  lemma {:induction false} VisitCovers(c: Config, s: Store, e: Entry, bound: nat)
    requires Valid(s) && |e.key| <= bound && Bounded(s.keys, bound) && !c.dryrun
    requires Visit(c, s, e, bound).err == None
    ensures forall k :: k in s.objects && e.key <= k && (e.isDir || k == e.key) ==> k in Visit(c, s, e, bound).done
    decreases if e.isDir then bound - |e.key| + 1 else 0, 3, 0
  {
    if e.isDir {
      PrefixCovers(c, s, e.key, bound);
    } else {
      LeafDone(c, s, e.key);
    }
  }

  /** The accounting of a whole drain. */
  lemma DrainAccounted(c: Config, s: Store)
    ensures Accounted(c, s, "", Drain(c, s))
  {
    PrefixAccounted(c, s, "", MaxLen(s.keys));
  }

  /** Whatever the outcome, the bucket afterwards holds exactly the objects the drain did
      not complete, each with its body, in their order; the completed keys are gone. */
  lemma DrainKeepsTheRest(c: Config, s: Store)
    ensures var r := Drain(c, s);
            && (forall k :: k in r.done ==> k in s.objects && k !in r.store.objects)
            && (forall k :: k in s.objects && k !in r.done ==> k in r.store.objects && r.store.objects[k] == s.objects[k])
            && r.store.keys == Drop(s.keys, ToSet(r.done))
  {
    DrainAccounted(c, s);
    RemoveAllDeletes(s, Drain(c, s).done);
  }

  /** A live drain that ends without error empties the bucket. Every object was completed
      exactly once, and the requests are each object's body to every dispatcher, in
      dispatcher order, object after object. */
  lemma DrainEmpties(c: Config, s: Store)
    requires Valid(s) && !c.dryrun && Drain(c, s).err == None
    ensures var r := Drain(c, s);
            && r.store == Store(map[], [])
            && Distinct(r.done) && ToSet(r.done) == s.objects.Keys
            && r.calls == SentFor(c, s.objects, r.done) && r.trace == []
  {
    var r := Drain(c, s);
    DrainAccounted(c, s);
    PrefixCovers(c, s, "", MaxLen(s.keys));
    RemoveAllDeletes(s, r.done);
    assert ToSet(r.done) == s.objects.Keys;
    DropEverything(s.keys, ToSet(r.done));
  }

  lemma {:induction false} DropEverything(keys: seq<string>, gone: set<string>)
    requires forall k :: k in keys ==> k in gone
    ensures Drop(keys, gone) == []
  {
    if keys != [] {
      DropEverything(keys[1..], gone);
    }
  }

  /** A live drain stopped by a refusing dispatcher: the object stays in the bucket; the
      objects completed before it were sent everywhere and deleted; the failing object
      went to the dispatchers up to and including the first one the service refused. */
  lemma DrainDispatchFailure(c: Config, s: Store, k: string, j: nat)
    requires !c.dryrun && Drain(c, s).err == Some(DispatchFailed(k, j))
    ensures k in s.objects && k in Drain(c, s).store.objects && k !in Drain(c, s).done
    ensures forall key :: key in Drain(c, s).done ==> key in s.objects
    ensures var r := Drain(c, s); var body := s.objects[k];
            && j < |c.dispatchers| && !c.cancelled
            && Input(c.dispatchers[j], body) in c.failing
            && (forall i :: 0 <= i < j ==> Input(c.dispatchers[i], body) !in c.failing)
            && r.calls == SentFor(c, s.objects, r.done) + Inputs(c.dispatchers[..j + 1], body)
  {
    DrainAccounted(c, s);
    RemoveAllDeletes(s, Drain(c, s).done);
  }

  /** A live drain stopped by a failed delete: the object stays, after it was sent to every
      dispatcher (unless the context was cancelled). */
  lemma DrainRemoveFailure(c: Config, s: Store, k: string)
    requires !c.dryrun && Drain(c, s).err == Some(RemoveFailed(k))
    ensures k in s.objects && k in Drain(c, s).store.objects && k !in Drain(c, s).done
    ensures forall key :: key in Drain(c, s).done ==> key in s.objects
    ensures var r := Drain(c, s);
            r.calls == SentFor(c, s.objects, r.done) + (if c.cancelled then [] else Inputs(c.dispatchers, s.objects[k]))
  {
    DrainAccounted(c, s);
    RemoveAllDeletes(s, Drain(c, s).done);
  }

  /** A dry run deletes nothing and sends nothing; its log is one line per dispatcher for
      each logged object of the bucket. */
  lemma DryRunTouchesNothing(c: Config, s: Store)
    requires c.dryrun
    ensures var r := Drain(c, s);
            && r.store == s && r.calls == [] && r.done == []
            && (forall k :: k in r.logged ==> k in s.objects)
            && r.trace == DryTrace(c.dispatchers, s.objects, r.logged)
  {
    DrainAccounted(c, s);
  }

  lemma {:induction false} SentForCancelled(c: Config, objects: map<string, Bytes>, done: seq<string>)
    requires c.cancelled && forall k :: k in done ==> k in objects
    ensures SentFor(c, objects, done) == []
  {
    if done != [] {
      SentForCancelled(c, objects, done[1..]);
    }
  }

  /** Under a cancelled context no request is sent. (Cancellation is a flag fixed for the
      whole drain, so deletions are not constrained here; with a real context the drain
      would stop at its next check.) */
  lemma CancelledSendsNothing(c: Config, s: Store)
    requires c.cancelled
    ensures Drain(c, s).calls == []
  {
    var r := Drain(c, s);
    DrainAccounted(c, s);
    if !c.dryrun {
      SentForCancelled(c, s.objects, r.done);
    }
  }

  /** `k` is an object directly at level `p`: no "/" follows the prefix. */
  predicate Direct(p: string, k: string)
  {
    p <= k && '/' !in k[|p|..]
  }

  /** Only the last of the logged keys may be directly at level `p`. */
  predicate StopsAtDirect(p: string, logged: seq<string>)
  {
    forall m :: 0 <= m < |logged| - 1 ==> !Direct(p, logged[m])
  }

  /** Below a common prefix of `p` no key is directly at level `p`. */
  lemma BelowDirNotDirect(p: string, d: string, k: string)
    requires p <= d && |p| < |d| && d[|d| - 1] == '/' && d <= k
    ensures !Direct(p, k)
  {
    assert k[|p|..][|d| - 1 - |p|] == '/';
  }

  /** In a dry run the walk of a level stops at the first object directly at that level:
      only the last key it logs can be one. The walk of a common prefix never logs such a
      key of the level above, so the level above goes on after it. */
  lemma {:induction false} DryPrefixLevel(c: Config, s: Store, p: string, bound: nat)
    requires c.dryrun && |p| <= bound && Bounded(s.keys, bound)
    ensures StopsAtDirect(p, DrainPrefix(c, s, p, bound).logged)
    decreases bound - |p| + 1, 2, 0
  {
    ListingChildren(s.keys, p, bound);
    ListingListed(s.keys, p);
    DryEntriesLevel(c, s, p, Listing(s.keys, p), 0, bound);
    assert DrainPrefix(c, s, p, bound) == DrainEntries(c, s, p, Listing(s.keys, p), 0, bound);
  }

  /** The keys a common prefix of `p` logs are not directly at level `p`. */
  lemma DirLoggedNotDirect(c: Config, s: Store, p: string, e: Entry, bound: nat)
    requires e.isDir && |e.key| <= bound && Bounded(s.keys, bound)
    requires p <= e.key && |p| < |e.key| && ChildOf(p, e.key) == e
    ensures forall k :: k in Visit(c, s, e, bound).logged ==> !Direct(p, k)
  {
    PrefixAccounted(c, s, e.key, bound);
    forall k | k in Visit(c, s, e, bound).logged
      ensures !Direct(p, k)
    {
      BelowDirNotDirect(p, e.key, k);
    }
  }

  lemma LoggedJoin(p: string, a: seq<string>, b: seq<string>)
    requires forall k :: k in a ==> !Direct(p, k)
    requires StopsAtDirect(p, b)
    ensures StopsAtDirect(p, a + b)
  {
    forall m | 0 <= m < |a + b| - 1
      ensures !Direct(p, (a + b)[m])
    {
      if m < |a| {
        assert (a + b)[m] in a;
      } else {
        assert (a + b)[m] == b[m - |a|];
      }
    }
  }

  lemma {:induction false} DryEntriesLevel(c: Config, s: Store, p: string, es: seq<Entry>, i: nat, bound: nat)
    requires c.dryrun && i <= |es| && |p| <= bound && Bounded(s.keys, bound) && Children(es, p, bound)
    requires Listed(p, es)
    ensures StopsAtDirect(p, DrainEntries(c, s, p, es, i, bound).logged)
    decreases bound - |p| + 1, 1, |es| - i
  {
    if i < |es| && !(p in c.faults.listFails && c.faults.listFails[p] == i) {
      ChildAt(es, p, bound, i);
      var e := es[i];
      var r := Visit(c, s, e, bound);
      if e.isDir {
        assert e in es;
        DirLoggedNotDirect(c, s, p, e, bound);
        if r.err.None? {
          var rest := DrainEntries(c, r.store, p, es, i + 1, bound);
          DryEntriesLevel(c, r.store, p, es, i + 1, bound);
          LoggedJoin(p, r.logged, rest.logged);
        }
      } else {
        LeafDone(c, s, e.key);
      }
    }
  }

  /** The entries of a listing of the store's keys each have a key of the store below them. */
  predicate Witnessed(s: Store, es: seq<Entry>)
  {
    forall e :: e in es ==> exists k :: k in s.objects && e.key <= k
  }

  lemma ListingWitnessed(s: Store, p: string)
    requires Valid(s)
    ensures Witnessed(s, Listing(s.keys, p))
  {
    ListingMembers(s.keys, p);
  }

  /** The first step of a walk from entry `i` that ends without error: the visit of entry
      `i` ends without error, logs a prefix of what the walk logs, and unless it is a
      dry-run object the walk goes on from entry `i + 1` in the store the visit left. */
  lemma EntriesStart(c: Config, s: Store, p: string, es: seq<Entry>, i: nat, bound: nat)
    requires i < |es| && |p| <= bound && Bounded(s.keys, bound) && Children(es, p, bound)
    requires DrainEntries(c, s, p, es, i, bound).err == None
    ensures |es[i].key| <= bound && (es[i].isDir ==> |p| < |es[i].key|)
    ensures Visit(c, s, es[i], bound).err == None
    ensures Visit(c, s, es[i], bound).logged <= DrainEntries(c, s, p, es, i, bound).logged
    ensures !(c.dryrun && !es[i].isDir) ==>
              Bounded(Visit(c, s, es[i], bound).store.keys, bound) &&
              DrainEntries(c, s, p, es, i, bound).logged ==
                Visit(c, s, es[i], bound).logged +
                DrainEntries(c, Visit(c, s, es[i], bound).store, p, es, i + 1, bound).logged
  {
    ChildAt(es, p, bound, i);
  }

  /** In a dry run that ends without error, the walk of a level that has a key below it
      logs at least one key. */
  lemma {:induction false} DryPrefixLogs(c: Config, s: Store, p: string, bound: nat, k: string)
    requires c.dryrun && Valid(s) && |p| <= bound && Bounded(s.keys, bound)
    requires k in s.objects && p <= k && DrainPrefix(c, s, p, bound).err == None
    ensures DrainPrefix(c, s, p, bound).logged != []
    decreases bound - |p| + 1
  {
    var es := Listing(s.keys, p);
    ListingChildren(s.keys, p, bound);
    ListingMembers(s.keys, p);
    ListingWitnessed(s, p);
    assert ChildOf(p, k) in es;
    assert DrainPrefix(c, s, p, bound) == DrainEntries(c, s, p, es, 0, bound);
    EntriesStart(c, s, p, es, 0, bound);
    var e := es[0];
    assert e in es;
    var k0 :| k0 in s.objects && e.key <= k0;
    if e.isDir {
      DryPrefixLogs(c, s, e.key, bound, k0);
    } else {
      LeafDone(c, s, e.key);
    }
  }

  /** In a dry run that ends without error, every common prefix from entry `i` on is
      walked and logs a key below it, as long as no object sits directly at the level. */
  lemma {:induction false} DryLevelCovers(c: Config, s: Store, p: string, es: seq<Entry>, i: nat, bound: nat)
    requires c.dryrun && Valid(s) && i <= |es| && |p| <= bound && Bounded(s.keys, bound)
    requires Children(es, p, bound) && Witnessed(s, es)
    requires forall j :: i <= j < |es| ==> es[j].isDir
    requires DrainEntries(c, s, p, es, i, bound).err == None
    ensures forall j :: i <= j < |es| ==> LoggedBelow(es[j].key, DrainEntries(c, s, p, es, i, bound).logged)
    decreases |es| - i
  {
    if i < |es| {
      EntriesStart(c, s, p, es, i, bound);
      DryLevelStep(c, s, p, es, i, bound);
      DryLevelCovers(c, s, p, es, i + 1, bound);
      CoversJoin(es, i, Visit(c, s, es[i], bound).logged, DrainEntries(c, s, p, es, i + 1, bound).logged);
    }
  }

  /** One common prefix of a dry-run level: its walk logs a key below it, first, and the
      level's log goes on with the rest of the level. */
  lemma DryLevelStep(c: Config, s: Store, p: string, es: seq<Entry>, i: nat, bound: nat)
    requires c.dryrun && Valid(s) && i < |es| && |p| <= bound && Bounded(s.keys, bound)
    requires Children(es, p, bound) && Witnessed(s, es) && es[i].isDir && |es[i].key| <= bound
    requires DrainEntries(c, s, p, es, i, bound).err == None
    ensures var r := Visit(c, s, es[i], bound);
            && r.logged != [] && es[i].key <= r.logged[0]
            && DrainEntries(c, s, p, es, i, bound).logged == r.logged + DrainEntries(c, s, p, es, i + 1, bound).logged
            && DrainEntries(c, s, p, es, i + 1, bound).err == None
  {
    EntriesStart(c, s, p, es, i, bound);
    var e := es[i];
    assert e in es;
    var k0 :| k0 in s.objects && e.key <= k0;
    DirLogsBelow(c, s, e, bound, k0);
    var r := Visit(c, s, e, bound);
    assert DrainEntries(c, s, p, es, i, bound) == Then(r, DrainEntries(c, s, p, es, i + 1, bound));
  }

  /** The dry-run walk of a common prefix with an object below it logs, first, a key below
      the prefix, and leaves the store as it was. */
  lemma DirLogsBelow(c: Config, s: Store, e: Entry, bound: nat, k0: string)
    requires c.dryrun && Valid(s) && e.isDir && |e.key| <= bound && Bounded(s.keys, bound)
    requires k0 in s.objects && e.key <= k0 && Visit(c, s, e, bound).err == None
    ensures var r := Visit(c, s, e, bound);
            r.store == s && r.logged != [] && e.key <= r.logged[0]
  {
    DryPrefixLogs(c, s, e.key, bound, k0);
    DryDirVisit(c, s, e, bound);
    var r := Visit(c, s, e, bound);
    assert r.logged[0] in r.logged;
  }

  /** Some logged key lies below `k`. */
  ghost predicate LoggedBelow(k: string, logged: seq<string>)
  {
    exists l :: l in logged && k <= l
  }

  lemma CoversJoin(es: seq<Entry>, i: nat, a: seq<string>, b: seq<string>)
    requires i < |es| && a != [] && es[i].key <= a[0]
    requires forall j :: i + 1 <= j < |es| ==> LoggedBelow(es[j].key, b)
    ensures forall j :: i <= j < |es| ==> LoggedBelow(es[j].key, a + b)
  {
    assert a[0] in a + b;
    forall j | i + 1 <= j < |es|
      ensures LoggedBelow(es[j].key, a + b)
    {
      assert LoggedBelow(es[j].key, b);
      var l :| l in b && es[j].key <= l;
      assert l in a + b;
    }
  }

  /** A dry-run walk of a common prefix leaves the store as it was and logs only keys
      below that prefix. */
  lemma DryDirVisit(c: Config, s: Store, e: Entry, bound: nat)
    requires c.dryrun && e.isDir && |e.key| <= bound && Bounded(s.keys, bound)
    ensures Visit(c, s, e, bound).store == s
    ensures forall l :: l in Visit(c, s, e, bound).logged ==> e.key <= l
  {
    PrefixAccounted(c, s, e.key, bound);
  }

  /** A dry run of a bucket whose every key lies below some "/": each top-level common
      prefix is walked and logs a key, so a level that stops at its first object does not
      stop the level above it. */
  lemma DryRunVisitsEveryFolder(c: Config, s: Store)
    requires c.dryrun && Valid(s) && Drain(c, s).err == None
    requires forall k :: k in s.objects ==> '/' in k
    ensures forall k :: k in s.objects ==> LoggedBelow(ChildOf("", k).key, Drain(c, s).logged)
  {
    var bound := MaxLen(s.keys);
    var es := Listing(s.keys, "");
    ListingChildren(s.keys, "", bound);
    ListingMembers(s.keys, "");
    ListingWitnessed(s, "");
    forall j | 0 <= j < |es|
      ensures es[j].isDir
    {
      assert es[j] in es;
    }
    DryLevelCovers(c, s, "", es, 0, bound);
    forall k | k in s.objects
      ensures LoggedBelow(ChildOf("", k).key, Drain(c, s).logged)
    {
      assert ChildOf("", k) in es;
      var j :| 0 <= j < |es| && es[j] == ChildOf("", k);
    }
  }
}
