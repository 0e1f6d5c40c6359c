/**
 * The gocloud pubsub dispatcher: a body is published to a topic either whole, as one
 * message, or line by line, one message per line the scanner finds.
 */
module PubSubDispatch {
  import opened Common
  import opened Scanner

  datatype Mode = All | Lines

  /** The topic's URI, with `mode` removed, and the delivery mode. */
  datatype PubSubDispatcher = PubSubDispatcher(topic: Uri, mode: Mode)

  /** The mode a `mode` parameter selects: "lines" when it is absent. */
  function ParseMode(q: string): (r: Result<Mode, string>)
    ensures r.Ok? <==> q in {"", "all", "lines"}
    ensures r == Ok(All) <==> q == "all"
    ensures r.Err? ==> r.error == "Invalid or unsupported mode, " + q
  {
    if q == "" || q == "lines" then Ok(Lines)
    else if q == "all" then Ok(All)
    else Err("Invalid or unsupported mode, " + q)
  }

  /** `NewPubSubDispatcher`: the mode is checked, then removed from the query before the
      topic is opened. `openTopic` says whether the topic opens. */
  function NewPubSubDispatcher(uri: Uri, openTopic: Uri -> bool): (r: Result<PubSubDispatcher, string>)
    ensures r.Ok? <==> ParseMode(Get(uri.query, "mode")).Ok? && openTopic(uri.(query := Del(uri.query, "mode")))
    ensures ParseMode(Get(uri.query, "mode")).Err? ==> r == Err(ParseMode(Get(uri.query, "mode")).error)
    ensures r.Ok? ==> r.value.mode == ParseMode(Get(uri.query, "mode")).value
    ensures r.Ok? ==> forall i :: 0 <= i < |r.value.topic.query| ==> r.value.topic.query[i].0 != "mode"
  {
    match ParseMode(Get(uri.query, "mode"))
    case Err(e) => Err(e)
    case Ok(mode) =>
      var topic := uri.(query := Del(uri.query, "mode"));
      if !openTopic(topic) then Err("Failed to create topic") else Ok(PubSubDispatcher(topic, mode))
  }

  /** The topic: every `Send` is recorded in `sent`, and fails exactly when its message is
      one of `failing`. */
  class Topic {
    var sent: seq<Bytes>
    const failing: set<Bytes>

    constructor (failing: set<Bytes>)
      ensures this.failing == failing && sent == []
    {
      this.failing := failing;
      sent := [];
    }

    method Send(msg: Bytes) returns (ok: bool)
      modifies this
      ensures sent == old(sent) + [msg]
      ensures ok <==> msg !in failing
    {
      sent := sent + [msg];
      ok := msg !in failing;
    }
  }

  /** The messages a dispatch has to send: the body, or the scanner's lines. */
  function Messages(mode: Mode, body: Bytes): seq<Bytes>
  {
    if mode == All then [body] else ScanLines(body).tokens
  }

  const SendFailed := WebhookError(Status(999), "Failed to send message")
  const ScannerFailed := WebhookError(Status(999), "Scanner reported an error")

  /** The error of a dispatch: a refused send, or else, in "lines" mode, a line too long
      for the scanner. */
  function Failure(mode: Mode, body: Bytes, failing: set<Bytes>): Option<WebhookError>
  {
    var msgs := Messages(mode, body);
    if FirstIn(msgs, failing) < |msgs| then Some(SendFailed)
    else if mode == Lines && ScanLines(body).tooLong then Some(ScannerFailed)
    else None
  }

  /** The loop of `dispatchLines`: send each message in order, stopping at the first
      refusal. */
  method SendEach(topic: Topic, msgs: seq<Bytes>) returns (ok: bool)
    modifies topic
    ensures topic.sent == old(topic.sent) + Attempted(msgs, topic.failing)
    ensures ok <==> FirstIn(msgs, topic.failing) == |msgs|
  {
    ghost var n := FirstIn(msgs, topic.failing);
    var i := 0;
    while i < |msgs|
      invariant i <= n
      invariant topic.sent == old(topic.sent) + msgs[..i]
    {
      var sentOk := topic.Send(msgs[i]);
      assert msgs[..i + 1] == msgs[..i] + [msgs[i]];
      if !sentOk {
        return false;
      }
      i := i + 1;
    }
    assert msgs[..i] == msgs;
    return true;
  }

  /** `dispatchLines`: send the lines the scanner yields, then report the scanner's own
      error. */
  method DispatchLines(topic: Topic, body: Bytes) returns (ok: bool, scanError: bool)
    modifies topic
    ensures topic.sent == old(topic.sent) + Attempted(ScanLines(body).tokens, topic.failing)
    ensures ok <==> FirstIn(ScanLines(body).tokens, topic.failing) == |ScanLines(body).tokens|
    ensures scanError <==> ok && ScanLines(body).tooLong
  {
    var scan := ScanLines(body);
    ok := SendEach(topic, scan.tokens);
    scanError := ok && scan.tooLong;
  }

  /** `Dispatch`: the whole body in "all" mode, its lines otherwise; a refused send or a
      scanner error is error 999. The context is not consulted. */
  method Dispatch(d: PubSubDispatcher, topic: Topic, body: Bytes) returns (err: Option<WebhookError>)
    modifies topic
    ensures topic.sent == old(topic.sent) + Attempted(Messages(d.mode, body), topic.failing)
    ensures err == Failure(d.mode, body, topic.failing)
  {
    if d.mode == All {
      var ok := topic.Send(body);
      err := if ok then None else Some(SendFailed);
    } else {
      var ok, scanError := DispatchLines(topic, body);
      err := if !ok then Some(SendFailed) else if scanError then Some(ScannerFailed) else None;
    }
  }

  /** "all" mode sends one message, the body itself, whatever it holds. */
  lemma AllSendsBody(body: Bytes, failing: set<Bytes>)
    ensures Attempted(Messages(All, body), failing) == [body]
    ensures Failure(All, body, failing) == None <==> body !in failing
  {
  }

  /** In "lines" mode an empty body sends nothing and succeeds. */
  lemma EmptyBodySendsNothing(failing: set<Bytes>)
    ensures Attempted(Messages(Lines, []), failing) == []
    ensures Failure(Lines, [], failing) == None
  {
  }

  /** Lines written one per "\n", none holding "\n", ending in "\r" or too long for the
      scanner, are sent one message per line, in order, until the first refusal; when none
      is refused the dispatch succeeds. */
  lemma LinesSentInOrder(lines: seq<Bytes>, failing: set<Bytes>)
    requires forall t :: t in lines ==> NL !in t && |t| < MaxScanTokenSize && DropCR(t) == t
    ensures Messages(Lines, JoinLines(lines)) == lines
    ensures Failure(Lines, JoinLines(lines), failing) == None <==> forall t :: t in lines ==> t !in failing
  {
    ScanJoinLines(lines);
    if FirstIn(lines, failing) < |lines| {
      assert lines[FirstIn(lines, failing)] in lines;
    }
  }
}
