/**
 * The gocloud blob dispatcher: each body is written to a bucket under a name derived
 * from its SHA-256 hash, optionally preceded by the Unix time. The hash is a parameter
 * (`hash(body)` is `HashBody`'s hex string), and so is the clock (`now` is the Unix time
 * in seconds at the call).
 */
module BlobDispatch {
  import opened Common

  /** The bucket's URI, with `dispatch_prefix` removed, and the prefix setting. */
  datatype BlobDispatcher = BlobDispatcher(bucket: Uri, prefix: string)

  /** `NewBlobDispatcher`: `dispatch_prefix` is read and removed from the query before the
      bucket is opened; any prefix value is accepted here. `openBucket` says whether the
      bucket opens. */
  function NewBlobDispatcher(uri: Uri, openBucket: Uri -> bool): (r: Result<BlobDispatcher, string>)
    ensures r.Ok? <==> openBucket(uri.(query := Del(uri.query, "dispatch_prefix")))
    ensures r.Ok? ==> r.value.prefix == Get(uri.query, "dispatch_prefix")
    ensures r.Ok? ==> forall i :: 0 <= i < |r.value.bucket.query| ==> r.value.bucket.query[i].0 != "dispatch_prefix"
    ensures r.Ok? ==> forall p :: p in uri.query && p.0 != "dispatch_prefix" ==> p in r.value.bucket.query
  {
    var bucket := uri.(query := Del(uri.query, "dispatch_prefix"));
    if !openBucket(bucket) then Err("Failed to open bucket")
    else Ok(BlobDispatcher(bucket, Get(uri.query, "dispatch_prefix")))
  }

  predicate IsDigit(c: char)
  {
    '0' <= c <= '9'
  }

  predicate AllDigits(s: string)
  {
    forall i :: 0 <= i < |s| ==> IsDigit(s[i])
  }

  /** A decimal numeral as `%d` writes one: digits, after a "-" when negative. */
  predicate IsDecimal(s: string)
  {
    s != [] && if s[0] == '-' then |s| > 1 && AllDigits(s[1..]) else AllDigits(s)
  }

  function DigitChar(d: nat): (c: char)
    requires d < 10
    ensures IsDigit(c) && c as int - '0' as int == d
  {
    ('0' as int + d) as char
  }

  /** The decimal digits of `n`, most significant first, without leading zeros. */
  function NatDecimal(n: nat): (s: string)
    ensures s != [] && AllDigits(s) && s[0] != '-'
    decreases n
  {
    if n < 10 then [DigitChar(n)] else NatDecimal(n / 10) + [DigitChar(n % 10)]
  }

  /** `fmt.Sprintf("%d", n)`. */
  function Decimal(n: int): (s: string)
    ensures IsDecimal(s)
  {
    if n < 0 then "-" + NatDecimal(-n) else NatDecimal(n)
  }

  function ParseDigits(s: string): nat
    requires AllDigits(s)
  {
    if s == [] then 0 else ParseDigits(s[..|s| - 1]) * 10 + (s[|s| - 1] as int - '0' as int)
  }

  /** The value a decimal numeral denotes. */
  function ParseDecimal(s: string): int
    requires IsDecimal(s)
  {
    if s[0] == '-' then 0 - ParseDigits(s[1..]) else ParseDigits(s)
  }

  lemma {:induction false} NatDecimalRoundTrip(n: nat)
    ensures ParseDigits(NatDecimal(n)) == n
    decreases n
  {
    if n >= 10 {
      var s := NatDecimal(n);
      assert s[..|s| - 1] == NatDecimal(n / 10);
      NatDecimalRoundTrip(n / 10);
    }
  }

  /** The numeral `%d` writes reads back as the number. */
  lemma DecimalRoundTrip(n: int)
    ensures ParseDecimal(Decimal(n)) == n
  {
    if n < 0 {
      NatDecimalRoundTrip(-n);
      assert Decimal(n)[1..] == NatDecimal(-n);
    } else {
      NatDecimalRoundTrip(n);
    }
  }

  const TimestampPrefix := "_ts_"

  const CustomPrefix := WebhookError(Status(999), "Custom prefixes are not immplemented yet")

  /** The object name for a body whose hash is `hash`: the hash alone with no prefix; with
      `_ts_`, the time as a decimal numeral, "-", then the hash, so that the name splits back
      into the two; any other prefix is an error. */
  function FileName(prefix: string, now: int, hash: string): (r: Result<string, WebhookError>)
    ensures r.Ok? <==> prefix == "" || prefix == TimestampPrefix
    ensures prefix == "" ==> r == Ok(hash)
    ensures r.Err? ==> r.error == CustomPrefix
    ensures prefix == TimestampPrefix ==>
              var name, n := r.value, |r.value| - |hash| - 1;
              && 0 < n < |name|
              && name[n] == '-'
              && name[n + 1..] == hash
              && IsDecimal(name[..n])
              && ParseDecimal(name[..n]) == now
  {
    if prefix == "" then Ok(hash)
    else if prefix == TimestampPrefix then
      var name := Decimal(now) + "-" + hash;
      DecimalRoundTrip(now);
      assert name[..|Decimal(now)|] == Decimal(now);
      Ok(name)
    else Err(CustomPrefix)
  }

  /** Two times give two names: with `_ts_`, bodies dispatched at different seconds never
      overwrite each other. */
  lemma TimestampNamesDiffer(now1: int, now2: int, hash1: string, hash2: string)
    requires now1 != now2
    ensures FileName(TimestampPrefix, now1, hash1) != FileName(TimestampPrefix, now2, hash2)
  {
  }

  /** The bucket: the objects it holds, by name. A write to one of the names in `failing`
      fails (at the writer's creation, its write or its close) and stores nothing. */
  class Bucket {
    var objects: map<string, Bytes>
    const failing: set<string>

    constructor (objects: map<string, Bytes>, failing: set<string>)
      ensures this.objects == objects && this.failing == failing
    {
      this.objects := objects;
      this.failing := failing;
    }

    method Write(name: string, body: Bytes) returns (ok: bool)
      modifies this
      ensures ok <==> name !in failing
      ensures objects == if ok then old(objects)[name := body] else old(objects)
    {
      ok := name !in failing;
      if ok {
        objects := objects[name := body];
      }
    }
  }

  const WriteFailed := WebhookError(Status(999), "Failed to write object")

  /** The bucket's objects after `Dispatch`, and its error. */
  function Stored(d: BlobDispatcher, cancelled: bool, now: int, hash: Bytes -> string,
                  failing: set<string>, objects: map<string, Bytes>, body: Bytes)
    : (map<string, Bytes>, Option<WebhookError>)
  {
    if cancelled then (objects, None)
    else match FileName(d.prefix, now, hash(body))
      case Err(e) => (objects, Some(e))
      case Ok(name) => if name in failing then (objects, Some(WriteFailed)) else (objects[name := body], None)
  }

  /** `Dispatch`: nothing is written under a cancelled context or an unknown prefix; otherwise
      the body is written under its name. */
  method Dispatch(d: BlobDispatcher, bucket: Bucket, cancelled: bool, now: int, hash: Bytes -> string, body: Bytes)
    returns (err: Option<WebhookError>)
    modifies bucket
    ensures (bucket.objects, err) == Stored(d, cancelled, now, hash, bucket.failing, old(bucket.objects), body)
  {
    if cancelled {
      return None;
    }
    var name := FileName(d.prefix, now, hash(body));
    if name.Err? {
      return Some(name.error);
    }
    var ok := bucket.Write(name.value, body);
    if !ok {
      return Some(WriteFailed);
    }
    return None;
  }

  /** A dispatch changes at most one object: on success the object under the body's name
      holds exactly the body and every other object is as it was; on an error, or under a
      cancelled context, nothing changes. */
  lemma StoredObjects(d: BlobDispatcher, cancelled: bool, now: int, hash: Bytes -> string,
                      failing: set<string>, objects: map<string, Bytes>, body: Bytes)
    ensures var (after, err) := Stored(d, cancelled, now, hash, failing, objects, body);
            && (cancelled || err.Some? ==> after == objects)
            && (err.Some? ==> err.value.code == Status(999))
            && (!cancelled && err.None? ==>
                  var name := FileName(d.prefix, now, hash(body)).value;
                  && name in after && after[name] == body
                  && after.Keys == objects.Keys + {name}
                  && forall k :: k in objects && k != name ==> after[k] == objects[k])
    ensures !cancelled && d.prefix != "" && d.prefix != TimestampPrefix ==>
              Stored(d, cancelled, now, hash, failing, objects, body) == (objects, Some(CustomPrefix))
  {
  }

  /** Without a prefix the name depends on the body alone: dispatching the same body again,
      at any time, writes the same object with the same bytes and leaves the bucket as the
      first dispatch left it. */
  lemma RepeatOverwrites(d: BlobDispatcher, now1: int, now2: int, hash: Bytes -> string,
                         failing: set<string>, objects: map<string, Bytes>, body: Bytes)
    requires d.prefix == ""
    ensures var once := Stored(d, false, now1, hash, failing, objects, body);
            Stored(d, false, now2, hash, failing, once.0, body) == once
  {
    var name := hash(body);
    if name !in failing {
      assert objects[name := body][name := body] == objects[name := body];
    }
  }
}
