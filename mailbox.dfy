/**
 * The blob bucket the buffered dispatcher drains: a key-to-bytes map whose keys
 * are kept in the store's listing order, a directory-style listing with
 * delimiter "/", and a fault plan saying which listings, opens, reads and
 * deletes the store fails.
 */
module Mailbox {
  import opened Common

  /** An item of a listing: an object key, or a common prefix ending in "/" (`IsDir`). */
  datatype Entry = Entry(key: string, isDir: bool)

  /** What the store fails: the listing of a prefix fails on its n-th `Next` call
      (counting from 0); opening, reading or deleting a key fails. */
  datatype Faults = Faults(listFails: map<string, nat>, openFails: set<string>,
                           readFails: set<string>, removeFails: set<string>)

  /** The errors that end the traversal, each naming where it happened. */
  datatype DrainError =
    | IterateFailed(prefix: string)
    | OpenFailed(path: string)
    | ReadFailed(path: string)
    | DispatchFailed(path: string, target: nat)
    | RemoveFailed(path: string)

  /** The bucket's contents: objects by key, and the keys in listing order. */
  datatype Store = Store(objects: map<string, Bytes>, keys: seq<string>)

  ghost predicate Valid(s: Store)
  {
    Distinct(s.keys) && forall k :: k in s.objects <==> k in s.keys
  }

  /** Every key is at most `bound` long. */
  predicate Bounded(keys: seq<string>, bound: nat)
  {
    MaxLen(keys) <= bound
  }

  /** The length of the longest key, which bounds the recursion over prefixes. */
  function MaxLen(keys: seq<string>): (n: nat)
  {
    if keys == [] then 0
    else
      var m := MaxLen(keys[1..]);
      if |keys[0]| > m then |keys[0]| else m
  }

  lemma {:induction false} MaxLenBounds(keys: seq<string>)
    ensures forall k :: k in keys ==> |k| <= MaxLen(keys)
  {
    if keys != [] {
      MaxLenBounds(keys[1..]);
    }
  }

  /** The keys that are not in `gone`, in their order. */
  function Drop(keys: seq<string>, gone: set<string>): (r: seq<string>)
    ensures MaxLen(r) <= MaxLen(keys)
  {
    if keys == [] then []
    else if keys[0] in gone then Drop(keys[1..], gone)
    else [keys[0]] + Drop(keys[1..], gone)
  }

  lemma {:induction false} DropMembers(keys: seq<string>, gone: set<string>)
    ensures forall k :: k in Drop(keys, gone) <==> k in keys && k !in gone
    ensures Distinct(keys) ==> Distinct(Drop(keys, gone))
  {
    if keys != [] {
      DropMembers(keys[1..], gone);
      assert Distinct(keys) ==> keys[0] !in keys[1..];
    }
  }

  lemma {:induction false} DropDrop(keys: seq<string>, a: set<string>, b: set<string>)
    ensures Drop(Drop(keys, a), b) == Drop(keys, a + b)
  {
    if keys != [] {
      DropDrop(keys[1..], a, b);
    }
  }

  lemma {:induction false} DropNothing(keys: seq<string>)
    ensures Drop(keys, {}) == keys
  {
    if keys != [] {
      DropNothing(keys[1..]);
    }
  }

  /** `bucket.Delete` on the contents. */
  function Remove(s: Store, key: string): (r: Store)
    ensures MaxLen(r.keys) <= MaxLen(s.keys)
  {
    Store(s.objects - {key}, Drop(s.keys, {key}))
  }

  lemma RemoveValid(s: Store, key: string)
    requires Valid(s)
    ensures Valid(Remove(s, key))
  {
    DropMembers(s.keys, {key});
  }

  /** The index of the first "/" in `s`, or |s|. */
  function SlashIndex(s: string): (i: nat)
    ensures i <= |s| && '/' !in s[..i]
    ensures i < |s| ==> s[i] == '/'
  {
    if s == [] then 0
    else if s[0] == '/' then 0
    else 1 + SlashIndex(s[1..])
  }

  lemma {:induction false} SlashIndexAfter(a: string, b: string)
    requires '/' !in a
    ensures SlashIndex(a + "/" + b) == |a|
  {
    if a != [] {
      assert (a + "/" + b)[1..] == a[1..] + "/" + b;
      SlashIndexAfter(a[1..], b);
    }
  }

  /** The entry a key shows when the bucket is listed under `prefix` with delimiter "/":
      a key with a "/" after the prefix shows as the common prefix up to and including
      that "/", any other key as itself. */
  function ChildOf(prefix: string, key: string): (e: Entry)
    requires prefix <= key
    ensures prefix <= e.key && e.key <= key
    ensures e.isDir <==> '/' in key[|prefix|..]
    ensures e.isDir ==> |prefix| < |e.key| && e.key[|e.key| - 1] == '/'
    ensures !e.isDir ==> e.key == key
  {
    var i := SlashIndex(key[|prefix|..]);
    if i < |key| - |prefix| then
      assert key[|prefix|..][i] == '/';
      Entry(key[..|prefix| + i + 1], true)
    else
      assert key[|prefix|..] == key[|prefix|..][..i];
      Entry(key, false)
  }

  /** Every key below a common prefix shows as that same common prefix. */
  lemma ChildOfBelowDir(prefix: string, key0: string, key: string)
    requires prefix <= key0
    requires ChildOf(prefix, key0).isDir && ChildOf(prefix, key0).key <= key
    ensures prefix <= key && ChildOf(prefix, key) == ChildOf(prefix, key0)
  {
    var d := ChildOf(prefix, key0).key;
    var i := SlashIndex(key0[|prefix|..]);
    var seg := key0[|prefix|..][..i];
    assert d == prefix + seg + "/";
    assert key[|prefix|..] == seg + "/" + key[|d|..];
    SlashIndexAfter(seg, key[|d|..]);
  }

  /** The entry a key shows is also the entry its own key shows. */
  lemma ChildOfIdem(prefix: string, key: string)
    requires prefix <= key
    ensures ChildOf(prefix, ChildOf(prefix, key).key) == ChildOf(prefix, key)
  {
    var e := ChildOf(prefix, key);
    if e.isDir {
      ChildOfBelowDir(prefix, key, e.key);
    }
  }

  /** The listing of `prefix` with delimiter "/": one entry per child, in the order of
      the first key that shows it. */
  function Listing(keys: seq<string>, prefix: string): (es: seq<Entry>)
    ensures Distinct(es)
  {
    if keys == [] then []
    else
      var es := Listing(keys[..|keys| - 1], prefix);
      var k := keys[|keys| - 1];
      if prefix <= k && ChildOf(prefix, k) !in es then es + [ChildOf(prefix, k)] else es
  }

  /** The listing shows exactly the children of the keys under the prefix. */
  lemma {:induction false} ListingMembers(keys: seq<string>, prefix: string)
    ensures forall e :: e in Listing(keys, prefix) ==>
              exists k :: k in keys && prefix <= k && ChildOf(prefix, k) == e
    ensures forall k :: k in keys && prefix <= k ==> ChildOf(prefix, k) in Listing(keys, prefix)
  {
    if keys != [] {
      var init := keys[..|keys| - 1];
      ListingMembers(init, prefix);
      assert keys == init + [keys[|keys| - 1]];
    }
  }

  /** What `bucket.NewReader` followed by `io.ReadAll` yields for a key. */
  function ReadObject(f: Faults, s: Store, path: string): (r: Result<Bytes, DrainError>)
    ensures r.Ok? <==> path in s.objects && path !in f.openFails && path !in f.readFails
    ensures r.Ok? ==> r.value == s.objects[path]
  {
    if path !in s.objects || path in f.openFails then Err(OpenFailed(path))
    else if path in f.readFails then Err(ReadFailed(path))
    else Ok(s.objects[path])
  }

  datatype Next = Item(entry: Entry) | Done | IterError

  /** `blob.ListIterator`: the entries of one listing, taken when `List` is called. */
  class ListIterator {
    const entries: seq<Entry>
    const failAt: Option<nat>
    var pos: nat

    constructor (entries: seq<Entry>, failAt: Option<nat>)
      ensures this.entries == entries && this.failAt == failAt && pos == 0
    {
      this.entries := entries;
      this.failAt := failAt;
      pos := 0;
    }

    /** `iter.Next`: the next entry, `io.EOF` (here `Done`) after the last, or the
        planned failure. */
    method Next() returns (r: Next)
      requires pos <= |entries|
      modifies this
      ensures failAt == Some(old(pos)) ==> r == IterError && pos == old(pos)
      ensures failAt != Some(old(pos)) && old(pos) == |entries| ==> r == Done && pos == old(pos)
      ensures failAt != Some(old(pos)) && old(pos) < |entries| ==>
                r == Item(entries[old(pos)]) && pos == old(pos) + 1
    {
      if failAt == Some(pos) {
        r := IterError;
      } else if pos == |entries| {
        r := Done;
      } else {
        r := Item(entries[pos]);
        pos := pos + 1;
      }
    }
  }

  /** `blob.Bucket` as the buffered dispatcher uses it. */
  class Bucket {
    var objects: map<string, Bytes>
    var keys: seq<string>
    const faults: Faults

    function Contents(): Store
      reads this
    {
      Store(objects, keys)
    }

    constructor (s: Store, faults: Faults)
      ensures Contents() == s && this.faults == faults
    {
      objects, keys := s.objects, s.keys;
      this.faults := faults;
    }

    /** `bucket.List` with the given prefix and delimiter "/". */
    method List(prefix: string) returns (it: ListIterator)
      ensures fresh(it) && it.pos == 0
      ensures it.entries == Listing(keys, prefix)
      ensures it.failAt == if prefix in faults.listFails then Some(faults.listFails[prefix]) else None
    {
      var failAt := if prefix in faults.listFails then Some(faults.listFails[prefix]) else None;
      it := new ListIterator(Listing(keys, prefix), failAt);
    }

    /** `bucket.NewReader` and `io.ReadAll`. */
    method Read(path: string) returns (r: Result<Bytes, DrainError>)
      ensures r == ReadObject(faults, Contents(), path)
    {
      if path !in objects || path in faults.openFails {
        r := Err(OpenFailed(path));
      } else if path in faults.readFails {
        r := Err(ReadFailed(path));
      } else {
        r := Ok(objects[path]);
      }
    }

    /** `bucket.Delete`: fails for a missing key or a planned failure, otherwise removes
        the key and nothing else. */
    method Delete(path: string) returns (ok: bool)
      modifies this
      ensures ok <==> path in old(objects) && path !in faults.removeFails
      ensures Contents() == if ok then Remove(old(Contents()), path) else old(Contents())
    {
      ok := path in objects && path !in faults.removeFails;
      if ok {
        objects := objects - {path};
        keys := Drop(keys, {path});
      }
    }
  }
}
