/**
 * The `lambda://` webhook dispatcher of the AWS package. It filters the body of a
 * webhook line by line and then invokes a Lambda function with it.
 *
 * Lines of the form `#key value` are a preamble the GitHub repo transformation
 * writes. They are removed from the body. A `message` or `author` value that
 * matches the configured halt pattern stops the dispatch with a HaltEvent error.
 * The remaining lines are joined without their line ends and sent as the invoke
 * payload: the JSON string of the body's base64 encoding.
 */
module AwsDispatcher {
  import opened Common
  import opened Lambda
  import opened Scanner

  const Hash: byte := 35

  /** RE2's `\s`: tab, newline, form feed, carriage return and space. */
  predicate IsSpace(c: byte)
  {
    c == 9 || c == 10 || c == 12 || c == 13 || c == 32
  }

  /** The length of the longest prefix of `s` without `\s`. */
  function NonSpaceRun(s: Bytes): (n: nat)
    ensures n <= |s|
    ensures forall i :: 0 <= i < n ==> !IsSpace(s[i])
    ensures n < |s| ==> IsSpace(s[n])
  {
    if s == [] || IsSpace(s[0]) then 0 else 1 + NonSpaceRun(s[1..])
  }

  /** `preamble_re.FindStringSubmatch` for `^#\s?([^\s]+)\s(.*)$`: the key and the value
      of a preamble line, or None when the line does not match. `\s?` takes a space
      when there is one, `[^\s]+` is greedy, and `.` does not match a newline. */
  function Preamble(line: Bytes): (r: Option<(Bytes, Bytes)>)
  {
    if |line| == 0 || line[0] != Hash then None
    else
      var start := if |line| > 1 && IsSpace(line[1]) then 2 else 1;
      var n := NonSpaceRun(line[start..]);
      if n == 0 || start + n == |line| || NL in line[start + n + 1..] then None
      else Some((line[start..start + n], line[start + n + 1..]))
  }

  /** The shape the preamble pattern describes: "#", an optional space, a key without
      spaces, one space, and a value without a newline. */
  predicate IsPreamble(line: Bytes, sp: Bytes, key: Bytes, w: byte, value: Bytes)
  {
    && line == [Hash] + sp + key + [w] + value
    && (sp == [] || (|sp| == 1 && IsSpace(sp[0])))
    && IsKey(key)
    && IsSpace(w) && NL !in value
  }

  lemma {:induction false} NonSpaceRunOf(key: Bytes, rest: Bytes)
    requires forall c :: c in key ==> !IsSpace(c)
    requires rest == [] || IsSpace(rest[0])
    ensures NonSpaceRun(key + rest) == |key|
  {
    if key != [] {
      assert (key + rest)[1..] == key[1..] + rest;
      NonSpaceRunOf(key[1..], rest);
    } else {
      assert key + rest == rest;
    }
  }

  /** Every line of the preamble shape matches, with its own key and value. */
  lemma PreambleComplete(line: Bytes, sp: Bytes, key: Bytes, w: byte, value: Bytes)
    requires IsPreamble(line, sp, key, w, value)
    ensures Preamble(line) == Some((key, value))
  {
    var start := 1 + |sp|;
    assert line[start..] == key + ([w] + value);
    NonSpaceRunOf(key, [w] + value);
    assert line[start..start + |key|] == key;
    assert line[start + |key| + 1..] == value;
  }

  /** Every line that matches has the preamble shape. */
  lemma PreambleSound(line: Bytes)
    requires Preamble(line).Some?
    ensures var (key, value) := Preamble(line).value;
            var start := |line| - |value| - 1 - |key|;
            IsPreamble(line, line[1..start], key, line[|line| - |value| - 1], value)
  {
    var start := if |line| > 1 && IsSpace(line[1]) then 2 else 1;
    var n := NonSpaceRun(line[start..]);
    var key, value := line[start..start + n], line[start + n + 1..];
    assert Preamble(line).value == (key, value);
    assert forall c :: c in key ==> !IsSpace(c);
    assert IsSpace(line[start..][n]);
    assert line == [Hash] + line[1..start] + key + [line[start + n]] + value;
  }

  /** A configured `LambdaDispatcher`. The halt patterns are the compiled
      `halt_on_message` and `halt_on_author` expressions, as match predicates. */
  datatype LambdaDispatcher = LambdaDispatcher(lambdaFunction: string, invocationType: string,
                                               haltOnMessage: Option<Bytes -> bool>,
                                               haltOnAuthor: Option<Bytes -> bool>)

  /** `NewLambdaDispatcher`. The function is the URI's host. The AWS session for the `dsn`
      parameter is created first (`session` gives the session library's error, if any);
      then `invocation_type` follows the shared rule, then `halt_on_message`, then
      `halt_on_author`. */
  function NewLambdaDispatcher(uri: Uri, session: string -> Result<(), string>,
                               compile: string -> Option<Bytes -> bool>)
    : (r: Result<LambdaDispatcher, string>)
    ensures r.Ok? <==>
              session(Get(uri.query, "dsn")).Ok? &&
              InvocationType(Get(uri.query, "invocation_type")).Ok? &&
              HaltPattern(compile, Get(uri.query, "halt_on_message"), "halt_on_message").Ok? &&
              HaltPattern(compile, Get(uri.query, "halt_on_author"), "halt_on_author").Ok?
    ensures session(Get(uri.query, "dsn")).Err? ==>
              r == Err("Failed to create new AWS session, " + session(Get(uri.query, "dsn")).error)
    ensures session(Get(uri.query, "dsn")).Ok? && InvocationType(Get(uri.query, "invocation_type")).Err? ==>
              r == Err("Invalid invocation_type parameter")
    ensures r.Ok? ==>
              r.value.lambdaFunction == uri.host &&
              r.value.invocationType == InvocationType(Get(uri.query, "invocation_type")).value &&
              r.value.haltOnMessage == HaltPattern(compile, Get(uri.query, "halt_on_message"), "halt_on_message").value &&
              r.value.haltOnAuthor == HaltPattern(compile, Get(uri.query, "halt_on_author"), "halt_on_author").value
  {
    match session(Get(uri.query, "dsn"))
    case Err(e) => Err("Failed to create new AWS session, " + e)
    case Ok(_) =>
      match InvocationType(Get(uri.query, "invocation_type"))
      case Err(e) => Err(e)
      case Ok(t) =>
        match HaltPattern(compile, Get(uri.query, "halt_on_message"), "halt_on_message")
        case Err(e) => Err(e)
        case Ok(onMessage) =>
          match HaltPattern(compile, Get(uri.query, "halt_on_author"), "halt_on_author")
          case Err(e) => Err(e)
          case Ok(onAuthor) => Ok(LambdaDispatcher(uri.host, t, onMessage, onAuthor))
  }

  /** The keys "message" and "author". */
  const MessageKey: Bytes := [109, 101, 115, 115, 97, 103, 101]
  const AuthorKey: Bytes := [97, 117, 116, 104, 111, 114]

  /** A possible preamble key: not empty, without `\s`. */
  predicate IsKey(key: Bytes)
  {
    key != [] && forall c :: c in key ==> !IsSpace(c)
  }

  lemma KeysAreKeys()
    ensures IsKey(MessageKey) && IsKey(AuthorKey) && MessageKey != AuthorKey
  {
  }

  /** A preamble line whose `message` or `author` value matches the configured pattern. */
  predicate Halts(d: LambdaDispatcher, line: Bytes)
  {
    match Preamble(line)
    case None => false
    case Some((key, value)) =>
      (key == MessageKey && d.haltOnMessage.Some? && d.haltOnMessage.value(value)) ||
      (key == AuthorKey && d.haltOnAuthor.Some? && d.haltOnAuthor.value(value))
  }

  /** `b` written before whatever `r` writes; an error stays an error. */
  function Prepend(b: Bytes, r: Result<Bytes, WebhookError>): Result<Bytes, WebhookError>
  {
    match r
    case Ok(o) => Ok(b + o)
    case Err(e) => Err(e)
  }

  /** The loop of `processBody` over the scanned lines: a preamble line is dropped (and
      halts the dispatch when its value matches); any other line is written without its
      line end. */
  function ProcessLines(d: LambdaDispatcher, lines: seq<Bytes>): (r: Result<Bytes, WebhookError>)
    ensures r.Err? ==> r.error == HaltError
  {
    if lines == [] then Ok([])
    else if Halts(d, lines[0]) then Err(HaltError)
    else if Preamble(lines[0]).Some? then ProcessLines(d, lines[1..])
    else Prepend(lines[0], ProcessLines(d, lines[1..]))
  }

  /** `processBody`: the body itself when no halt pattern is configured, otherwise the
      filtered lines. A line too long for the scanner ends the scan, and the scanner's
      error is not looked at. */
  function ProcessedBody(d: LambdaDispatcher, body: Bytes): Result<Bytes, WebhookError>
  {
    if d.haltOnMessage.None? && d.haltOnAuthor.None? then Ok(body)
    else ProcessLines(d, ScanLines(body).tokens)
  }

  /** The lines that are not preamble lines, in order. */
  function Kept(lines: seq<Bytes>): (r: seq<Bytes>)
    ensures forall l :: l in r ==> l in lines && Preamble(l).None?
  {
    if lines == [] then []
    else if Preamble(lines[0]).Some? then Kept(lines[1..])
    else [lines[0]] + Kept(lines[1..])
  }

  /** Some line of `lines` halts the dispatch. */
  predicate SomeHalt(d: LambdaDispatcher, lines: seq<Bytes>)
  {
    exists i :: 0 <= i < |lines| && Halts(d, lines[i])
  }

  lemma SomeHaltCons(d: LambdaDispatcher, lines: seq<Bytes>)
    requires lines != []
    ensures SomeHalt(d, lines) <==> Halts(d, lines[0]) || SomeHalt(d, lines[1..])
  {
    if SomeHalt(d, lines[1..]) {
      var i :| 0 <= i < |lines[1..]| && Halts(d, lines[1..][i]);
      assert Halts(d, lines[i + 1]);
    }
    if SomeHalt(d, lines) {
      var i :| 0 <= i < |lines| && Halts(d, lines[i]);
      if i > 0 {
        assert Halts(d, lines[1..][i - 1]);
      }
    }
  }

  /** Processing fails exactly when some line halts. */
  lemma {:induction false} ProcessLinesHalts(d: LambdaDispatcher, lines: seq<Bytes>)
    ensures ProcessLines(d, lines).Err? <==> SomeHalt(d, lines)
  {
    if lines != [] {
      ProcessLinesHalts(d, lines[1..]);
      SomeHaltCons(d, lines);
    }
  }

  /** When processing succeeds, the output is the concatenation of the lines that are not
      preamble lines, each without its line end. */
  lemma {:induction false} ProcessLinesOutput(d: LambdaDispatcher, lines: seq<Bytes>)
    ensures ProcessLines(d, lines).Ok? ==> ProcessLines(d, lines).value == Concat(Kept(lines))
  {
    if lines != [] {
      ProcessLinesOutput(d, lines[1..]);
    }
  }

  /** Preamble lines that do not halt leave no trace in the output. */
  lemma {:induction false} SkipPreambles(d: LambdaDispatcher, pre: seq<Bytes>, rest: seq<Bytes>)
    requires forall l :: l in pre ==> Preamble(l).Some? && !Halts(d, l)
    ensures ProcessLines(d, pre + rest) == ProcessLines(d, rest)
  {
    if pre != [] {
      assert pre[0] in pre;
      assert (pre + rest)[0] == pre[0];
      assert (pre + rest)[1..] == pre[1..] + rest;
      SkipPreambles(d, pre[1..], rest);
    } else {
      assert pre + rest == rest;
    }
  }

  /** `processBody` as a whole: with no halt pattern the body is passed on unchanged;
      otherwise it fails exactly when a scanned line halts, and succeeds with the scanned
      lines that are not preamble lines, joined without line ends. */
  lemma ProcessedBodyOutcome(d: LambdaDispatcher, body: Bytes)
    ensures d.haltOnMessage.None? && d.haltOnAuthor.None? ==> ProcessedBody(d, body) == Ok(body)
    ensures d.haltOnMessage.Some? || d.haltOnAuthor.Some? ==>
              (ProcessedBody(d, body).Err? <==> SomeHalt(d, ScanLines(body).tokens)) &&
              (ProcessedBody(d, body).Ok? ==> ProcessedBody(d, body).value == Concat(Kept(ScanLines(body).tokens)))
  {
    ProcessLinesHalts(d, ScanLines(body).tokens);
    ProcessLinesOutput(d, ScanLines(body).tokens);
  }

  /** `processBody`, the scanner loop. It writes each line that is not a preamble line into
      the buffer and returns the HaltEvent error at the first matching line. */
  method ProcessBody(d: LambdaDispatcher, body: Bytes) returns (r: Result<Bytes, WebhookError>)
    ensures r == ProcessedBody(d, body)
  {
    if d.haltOnMessage.None? && d.haltOnAuthor.None? {
      return Ok(body);
    }
    var lines := ScanLines(body).tokens;
    var buf: Bytes := [];
    var message: Bytes := [];
    var author: Bytes := [];
    var i := 0;
    PrependNothing(ProcessLines(d, lines));
    while i < |lines|
      invariant 0 <= i <= |lines|
      invariant ProcessLines(d, lines) == Prepend(buf, ProcessLines(d, lines[i..]))
    {
      var ln := lines[i];
      assert lines[i..][1..] == lines[i + 1..];
      match Preamble(ln) {
        case None =>
          PrependPrepend(buf, ln, ProcessLines(d, lines[i + 1..]));
          buf := buf + ln;
        case Some((key, value)) =>
          if key == MessageKey {
            message := value;
            if d.haltOnMessage.Some? && d.haltOnMessage.value(message) {
              return Err(HaltError);
            }
          } else if key == AuthorKey {
            author := value;
            if d.haltOnAuthor.Some? && d.haltOnAuthor.value(author) {
              return Err(HaltError);
            }
          }
      }
      i := i + 1;
    }
    assert lines[i..] == [];
    assert buf + [] == buf;
    return Ok(buf);
  }

  lemma PrependNothing(r: Result<Bytes, WebhookError>)
    ensures Prepend([], r) == r
  {
    if r.Ok? {
      assert [] + r.value == r.value;
    }
  }

  lemma PrependPrepend(a: Bytes, b: Bytes, r: Result<Bytes, WebhookError>)
    ensures Prepend(a, Prepend(b, r)) == Prepend(a + b, r)
  {
    if r.Ok? {
      assert a + (b + r.value) == a + b + r.value;
    }
  }

  /** `Dispatch`. A cancelled context returns nil without invoking. A halt (or any error of
      the body processing) is returned before any invocation. Otherwise the processed body
      goes to the function as the JSON string of its base64 encoding, and a failed
      invocation is error 999. */
  method Dispatch(d: LambdaDispatcher, svc: LambdaService, cancelled: bool, body: Bytes)
    returns (err: Option<WebhookError>)
    modifies svc
    ensures cancelled ==> err == None && svc.calls == old(svc.calls)
    ensures !cancelled && ProcessedBody(d, body).Err? ==>
              err == Some(ProcessedBody(d, body).error) && svc.calls == old(svc.calls)
    ensures !cancelled && ProcessedBody(d, body).Ok? ==>
              var input := InvokeInput(d.lambdaFunction, Payload(ProcessedBody(d, body).value), d.invocationType);
              svc.calls == old(svc.calls) + [input] &&
              (err == None <==> input !in svc.failing) &&
              (err.Some? ==> err.value.code == Status(999))
  {
    if cancelled {
      return None;
    }
    var processed := ProcessBody(d, body);
    if processed.Err? {
      return Some(processed.error);
    }
    var input := InvokeInput(d.lambdaFunction, Payload(processed.value), d.invocationType);
    var ok := svc.Invoke(input);
    if !ok {
      return Some(WebhookError(Status(999), "Failed to invoke Lambda function"));
    }
    return None;
  }
}
