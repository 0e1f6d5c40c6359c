/**
 * The AWS Lambda side shared by the two Lambda dispatchers: the invocation
 * types they accept, the invoke payload (the JSON string of the standard
 * base64 encoding of the body) and the Lambda service as an oracle that
 * records every `Invoke` and fails the inputs it is configured to fail.
 */
module Lambda {
  import opened Common
  import Base64

  /** `lambda.InvokeInput`: function name, payload and invocation type. */
  datatype InvokeInput = InvokeInput(functionName: string, payload: Bytes, invocationType: string)

  /** The `invocation_type` switch: "" means "RequestResponse"; "RequestResponse", "Event"
      and "DryRun" are kept; anything else is an error. */
  function InvocationType(q: string): (r: Result<string, string>)
    ensures q == "" ==> r == Ok("RequestResponse")
    ensures q in {"RequestResponse", "Event", "DryRun"} ==> r == Ok(q)
    ensures r.Err? <==> q !in {"", "RequestResponse", "Event", "DryRun"}
    ensures r.Ok? ==> r.value in {"RequestResponse", "Event", "DryRun"}
  {
    if q == "" then Ok("RequestResponse")
    else if q in {"RequestResponse", "Event", "DryRun"} then Ok(q)
    else Err("Invalid invocation_type parameter")
  }

  const Quote: byte := 34

  /** A byte that `json.Marshal` copies into a string literal unchanged: printable ASCII
      other than '"', '\\' and the HTML-sensitive '<', '>' and '&'. */
  predicate IsPlainJson(c: byte)
  {
    32 <= c <= 126 && c != 34 && c != 92 && c != 60 && c != 62 && c != 38
  }

  /** `json.Marshal` of a Go string made only of plain bytes: the bytes between quotes. */
  function MarshalString(s: Bytes): (r: Bytes)
    requires forall c :: c in s ==> IsPlainJson(c)
    ensures |r| == |s| + 2 && r[0] == Quote && r[|r| - 1] == Quote && r[1..|r| - 1] == s
  {
    [Quote] + s + [Quote]
  }

  /** The Lambda runtime's decoding of a JSON string literal into the handler's `string`
      argument, for literals without escape sequences. */
  function UnmarshalString(p: Bytes): (r: Result<Bytes, string>)
    ensures r.Ok? ==> (forall c :: c in r.value ==> IsPlainJson(c)) && MarshalString(r.value) == p
  {
    if |p| >= 2 && p[0] == Quote && p[|p| - 1] == Quote && forall c :: c in p[1..|p| - 1] ==> IsPlainJson(c)
    then Ok(p[1..|p| - 1])
    else Err("payload is not a JSON string without escapes")
  }

  lemma Base64IsPlainJson(b: Bytes)
    ensures forall c :: c in Base64.Encode(b) ==> IsPlainJson(c)
    decreases |b|
  {
    if |b| >= 3 {
      Base64IsPlainJson(b[3..]);
    }
  }

  /** The invoke payload both Lambda dispatchers send: the JSON string of the standard
      base64 encoding of the body (`PayloadIsMarshal`). */
  function Payload(body: Bytes): (p: Bytes)
  {
    [Quote] + Base64.Encode(body) + [Quote]
  }

  lemma PayloadIsMarshal(body: Bytes)
    ensures forall c :: c in Base64.Encode(body) ==> IsPlainJson(c)
    ensures Payload(body) == MarshalString(Base64.Encode(body))
  {
    Base64IsPlainJson(body);
  }

  /** What the receiving function's handler gets back from a payload: the base64 text,
      which decodes to the original body. */
  lemma PayloadRoundTrip(body: Bytes)
    ensures UnmarshalString(Payload(body)) == Ok(Base64.Encode(body))
    ensures Base64.IsShape(Base64.Encode(body)) && Base64.Decode(Base64.Encode(body)) == body
  {
    PayloadIsMarshal(body);
    var p := Payload(body);
    assert p[1..|p| - 1] == Base64.Encode(body);
    Base64.RoundTrip(body);
  }

  /** Different bodies give different payloads, so the payload identifies the body. */
  lemma PayloadInjective(a: Bytes, b: Bytes)
    requires Payload(a) == Payload(b)
    ensures a == b
  {
    PayloadRoundTrip(a);
    PayloadRoundTrip(b);
  }

  /** The AWS Lambda service: every `Invoke` is recorded in `calls`, and fails exactly
      when its input is one of `failing`. */
  class LambdaService {
    var calls: seq<InvokeInput>
    const failing: set<InvokeInput>

    constructor (failing: set<InvokeInput>)
      ensures this.failing == failing && calls == []
    {
      this.failing := failing;
      calls := [];
    }

    method Invoke(input: InvokeInput) returns (ok: bool)
      modifies this
      ensures calls == old(calls) + [input]
      ensures ok <==> input !in failing
    {
      calls := calls + [input];
      ok := input !in failing;
    }
  }
}
