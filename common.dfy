/**
 * Shared vocabulary: bytes, optional values and results, the webhook error
 * type of the daemon framework, query-string lookup and Go's `strconv.ParseBool`.
 */
module Common {

  /** A Go `byte`. Go strings and `[]byte` slices on the data path are byte sequences. */
  type byte = b: int | 0 <= b < 256

  type Bytes = seq<byte>

  datatype Option<+T> = None | Some(value: T)

  datatype Result<+T, +E> = Ok(value: T) | Err(error: E)

  /** The ASCII bytes of a literal; every literal used here is plain ASCII. */
  function Ascii(s: string): (r: Bytes)
    ensures |r| == |s|
    ensures forall i :: 0 <= i < |s| ==> r[i] == (s[i] as int) % 256
  {
    if s == [] then [] else [(s[0] as int) % 256] + Ascii(s[1..])
  }

  /** The codes a `webhookd.WebhookError` carries: HTTP statuses, the repository's own
      999 and 666, and the framework's two symbolic codes. */
  datatype Code = Status(n: int) | HaltEvent | UnhandledEvent

  datatype WebhookError = WebhookError(code: Code, message: string)

  /** A parsed URI: host and the query pairs in their original order. */
  datatype Uri = Uri(scheme: string, host: string, query: seq<(string, string)>)

  /** `url.Values.Get`: the first value given for `name`, or "" when there is none. */
  function Get(query: seq<(string, string)>, name: string): (v: string)
    ensures (forall i :: 0 <= i < |query| ==> query[i].0 != name) ==> v == ""
    ensures v != "" ==> exists i :: 0 <= i < |query| && query[i] == (name, v)
  {
    if query == [] then ""
    else if query[0].0 == name then query[0].1
    else Get(query[1..], name)
  }

  /** The value `Get` returns is the one of the first pair named `name`, whatever later
      pairs with that name hold. */
  lemma {:induction false} GetFirst(query: seq<(string, string)>, name: string, i: nat)
    requires i < |query| && query[i].0 == name
    requires forall j :: 0 <= j < i ==> query[j].0 != name
    ensures Get(query, name) == query[i].1
  {
    if i > 0 {
      GetFirst(query[1..], name, i - 1);
    }
  }

  /** `url.Values.Del` followed by re-encoding: every pair named `name` is dropped. */
  function Del(query: seq<(string, string)>, name: string): (q: seq<(string, string)>)
    ensures forall i :: 0 <= i < |q| ==> q[i].0 != name && q[i] in query
    ensures forall p :: p in query && p.0 != name ==> p in q
  {
    if query == [] then []
    else if query[0].0 == name then Del(query[1..], name)
    else [query[0]] + Del(query[1..], name)
  }

  /** Go's `strconv.ParseBool`. */
  function ParseBool(s: string): (r: Option<bool>)
    ensures r == Some(true) <==> s in {"1", "t", "T", "TRUE", "true", "True"}
    ensures r == Some(false) <==> s in {"0", "f", "F", "FALSE", "false", "False"}
  {
    if s in {"1", "t", "T", "TRUE", "true", "True"} then Some(true)
    else if s in {"0", "f", "F", "FALSE", "false", "False"} then Some(false)
    else None
  }

  /** The flag rule shared by the GitHub transformations: an absent or empty parameter
      means false, anything else must parse as a bool. */
  function FlagParam(query: seq<(string, string)>, name: string): (r: Result<bool, string>)
    ensures Get(query, name) == "" ==> r == Ok(false)
    ensures Get(query, name) != "" ==>
      (r.Ok? <==> ParseBool(Get(query, name)).Some?) &&
      (r.Ok? ==> r.value == ParseBool(Get(query, name)).value)
  {
    var v := Get(query, name);
    if v == "" then Ok(false)
    else match ParseBool(v)
      case Some(b) => Ok(b)
      case None => Err("Failed to parse '" + v + "'")
  }

  /** The error a matching halt pattern produces. */
  const HaltError := WebhookError(HaltEvent, "Halt")

  /** A `halt_on_message` or `halt_on_author` parameter: `regexp.Compile` on a non-empty
      value, which must succeed, kept as its match predicate; an empty value configures
      nothing. */
  function HaltPattern(compile: string -> Option<Bytes -> bool>, q: string, name: string)
    : (r: Result<Option<Bytes -> bool>, string>)
    ensures q == "" ==> r == Ok(None)
    ensures q != "" ==> (r.Ok? <==> compile(q).Some?) && (r.Ok? ==> r.value == compile(q))
  {
    if q == "" then Ok(None)
    else match compile(q)
      case None => Err("Failed to parse ?" + name + "= parameter")
      case Some(m) => Ok(Some(m))
  }

  /** The index of the first element of `s` in `failing`, or |s| when there is none. */
  function FirstIn<T>(s: seq<T>, failing: set<T>): (n: nat)
    ensures n <= |s|
    ensures forall i :: 0 <= i < n ==> s[i] !in failing
    ensures n < |s| ==> s[n] in failing
  {
    if s == [] then 0
    else if s[0] in failing then 0
    else 1 + FirstIn(s[1..], failing)
  }

  /** The elements of `s` up to the first in `failing`, that one included: what a loop
      that stops at its first failure gets through. A prefix of `s` in which only the last
      element can be failing, and which is all of `s` unless that last one fails. */
  function Attempted<T>(s: seq<T>, failing: set<T>): (a: seq<T>)
    ensures a <= s
    ensures forall i :: 0 <= i < |a| - 1 ==> a[i] !in failing
    ensures |a| < |s| ==> a != [] && a[|a| - 1] in failing
    ensures a == s <==> forall i :: 0 <= i < |s| - 1 ==> s[i] !in failing
  {
    var n := FirstIn(s, failing);
    if n == |s| then s else s[..n + 1]
  }

  /** Concatenation of a sequence of byte strings. */
  function Concat(parts: seq<Bytes>): (r: Bytes)
  {
    if parts == [] then [] else parts[0] + Concat(parts[1..])
  }

  lemma {:induction false} ConcatAppend(a: seq<Bytes>, b: seq<Bytes>)
    ensures Concat(a + b) == Concat(a) + Concat(b)
  {
    if a == [] {
      assert a + b == b;
    } else {
      assert (a + b)[1..] == a[1..] + b;
      ConcatAppend(a[1..], b);
    }
  }

  lemma AppendAssoc<T>(a: seq<T>, b: seq<T>, c: seq<T>)
    ensures a + b + c == a + (b + c)
  {
  }

  lemma ConsAppend<T>(s: seq<T>, tail: seq<T>)
    requires s != []
    ensures s + tail == [s[0]] + (s[1..] + tail)
  {
  }

  predicate Distinct<T(==)>(s: seq<T>)
  {
    forall i, j :: 0 <= i < j < |s| ==> s[i] != s[j]
  }

  function ToSet<T>(s: seq<T>): set<T>
  {
    set x | x in s
  }
}
