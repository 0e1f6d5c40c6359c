/**
 * The GitHub repo transformation: a push event becomes the name of its repository when
 * the push changed something of interest, optionally preceded by `#message` and
 * `#author` preamble lines that a Lambda dispatcher later reads and drops.
 */
module GitHubRepoTransformation {
  import opened Common
  import opened GitHubEvent
  import opened Scanner
  import AwsDispatcher

  datatype RepoTransformation = RepoTransformation(excludes: Excludes,
                                                   prependMessage: bool, prependAuthor: bool,
                                                   haltOnMessage: Option<Bytes -> bool>,
                                                   haltOnAuthor: Option<Bytes -> bool>)

  /** `NewGitHubRepoTransformation`: the three exclude flags, then `prepend_message` and
      `prepend_author`, then the two halt patterns; the first failure is the error. */
  function NewRepoTransformation(uri: Uri, compile: string -> Option<Bytes -> bool>)
    : (r: Result<RepoTransformation, string>)
    ensures r.Ok? <==>
              ExcludeFlags(uri.query).Ok? &&
              FlagParam(uri.query, "prepend_message").Ok? &&
              FlagParam(uri.query, "prepend_author").Ok? &&
              HaltPattern(compile, Get(uri.query, "halt_on_message"), "halt_on_message").Ok? &&
              HaltPattern(compile, Get(uri.query, "halt_on_author"), "halt_on_author").Ok?
    ensures ExcludeFlags(uri.query).Err? ==> r == Err(ExcludeFlags(uri.query).error)
    ensures r.Ok? ==>
              r.value.excludes == ExcludeFlags(uri.query).value &&
              r.value.prependMessage == FlagParam(uri.query, "prepend_message").value &&
              r.value.prependAuthor == FlagParam(uri.query, "prepend_author").value &&
              r.value.haltOnMessage == HaltPattern(compile, Get(uri.query, "halt_on_message"), "halt_on_message").value &&
              r.value.haltOnAuthor == HaltPattern(compile, Get(uri.query, "halt_on_author"), "halt_on_author").value
  {
    match ExcludeFlags(uri.query)
    case Err(e) => Err(e)
    case Ok(x) =>
      match FlagParam(uri.query, "prepend_message")
      case Err(e) => Err(e)
      case Ok(pm) =>
        match FlagParam(uri.query, "prepend_author")
        case Err(e) => Err(e)
        case Ok(pa) =>
          match HaltPattern(compile, Get(uri.query, "halt_on_message"), "halt_on_message")
          case Err(e) => Err(e)
          case Ok(hm) =>
            match HaltPattern(compile, Get(uri.query, "halt_on_author"), "halt_on_author")
            case Err(e) => Err(e)
            case Ok(ha) => Ok(RepoTransformation(x, pm, pa, hm, ha))
  }

  /** A commit changes something the transformation has not excluded. */
  predicate Updates(x: Excludes, c: Commit)
  {
    (!x.additions && |c.added| > 0) || (!x.modifications && |c.modified| > 0) || (!x.deletions && |c.removed| > 0)
  }

  /** `has_updates` after the loop over the commits. */
  predicate HasUpdates(x: Excludes, commits: seq<Commit>)
  {
    exists i :: 0 <= i < |commits| && Updates(x, commits[i])
  }

  /** The preamble line `#key value`, without its "\n". */
  function PreambleLine(key: Bytes, value: Bytes): Bytes
  {
    [AwsDispatcher.Hash] + key + [32] + value
  }

  /** `#message M\n` and `#author A\n`. */
  function MessageLine(m: Bytes): Bytes
  {
    PreambleLine(AwsDispatcher.MessageKey, m) + [NL]
  }

  function AuthorLine(a: Bytes): Bytes
  {
    PreambleLine(AwsDispatcher.AuthorKey, a) + [NL]
  }

  /** The head commit's message and author name are there wherever the output needs them. */
  predicate Prepended(t: RepoTransformation, ev: PushEvent)
  {
    (t.prependMessage ==> HeadMessage(ev).Some?) && (t.prependAuthor ==> HeadAuthor(ev).Some?)
  }

  /** The event holds every field the writes after the halt checks dereference: the
      repository name always, the message and the author name when they are prepended to
      a push with updates. */
  predicate Writable(t: RepoTransformation, ev: PushEvent)
  {
    ev.repoName.Some? && (HasUpdates(t.excludes, ev.commits) ==> Prepended(t, ev))
  }

  /** The output of a push event that passed the halt checks. */
  function RepoBody(t: RepoTransformation, ev: PushEvent): Bytes
    requires Writable(t, ev)
  {
    if !HasUpdates(t.excludes, ev.commits) then []
    else
      (if t.prependMessage then MessageLine(HeadMessage(ev).value) else []) +
      (if t.prependAuthor then AuthorLine(HeadAuthor(ev).value) else []) +
      ev.repoName.value
  }

  /** A halt pattern that is set matches a value that is there. */
  predicate Matches(p: Option<Bytes -> bool>, v: Option<Bytes>)
  {
    p.Some? && v.Some? && p.value(v.value)
  }

  /** The decoded event, in the order `Transform` reads it: the message when
      `halt_on_message` is set, then the author name when `halt_on_author` is set, then the
      repository name, then (for a push with updates) the prepended fields. Reading a nil
      field panics; a matching halt pattern is the HaltEvent error. */
  function EventBody(t: RepoTransformation, ev: PushEvent): Outcome<Bytes>
  {
    if t.haltOnMessage.Some? && HeadMessage(ev).None? then Panic
    else if Matches(t.haltOnMessage, HeadMessage(ev)) then Returned(Err(HaltError))
    else if t.haltOnAuthor.Some? && HeadAuthor(ev).None? then Panic
    else if Matches(t.haltOnAuthor, HeadAuthor(ev)) then Returned(Err(HaltError))
    else if !Writable(t, ev) then Panic
    else Returned(Ok(RepoBody(t, ev)))
  }

  /** `Transform`. A cancelled context gives no output and no error; a body that is not a
      push event is error 999 with the decoder's text; otherwise the event is read as
      `EventBody` says: a message matching `halt_on_message` halts first, then an author
      name matching `halt_on_author`, and a push that halts on neither gives `RepoBody`. */
  function Transformed(t: RepoTransformation, cancelled: bool, decode: Bytes -> Result<PushEvent, string>, body: Bytes)
    : (o: Outcome<Bytes>)
    ensures cancelled ==> o == Returned(Ok([]))
    ensures !cancelled && decode(body).Err? ==> o == Returned(Err(WebhookError(Status(999), decode(body).error)))
    ensures o.Returned? && o.result.Err? && !cancelled && decode(body).Ok? ==> o.result.error == HaltError
    ensures !cancelled && decode(body).Ok? ==>
              var ev := decode(body).value;
              && (Matches(t.haltOnMessage, HeadMessage(ev)) ==> o == Returned(Err(HaltError)))
              && ((!Matches(t.haltOnMessage, HeadMessage(ev)) && (t.haltOnMessage.None? || HeadMessage(ev).Some?) &&
                   Matches(t.haltOnAuthor, HeadAuthor(ev))) ==> o == Returned(Err(HaltError)))
              && ((!Matches(t.haltOnMessage, HeadMessage(ev)) && (t.haltOnMessage.None? || HeadMessage(ev).Some?) &&
                   !Matches(t.haltOnAuthor, HeadAuthor(ev)) && (t.haltOnAuthor.None? || HeadAuthor(ev).Some?) &&
                   Writable(t, ev)) ==> o == Returned(Ok(RepoBody(t, ev))))
  {
    if cancelled then Returned(Ok([]))
    else match decode(body)
      case Err(e) => Returned(Err(DecodeError(e)))
      case Ok(ev) => EventBody(t, ev)
  }

  /** `Transform`: the halt checks, the commit loop that sets `has_updates`, and the writes
      into the buffer. */
  method Transform(t: RepoTransformation, cancelled: bool, decode: Bytes -> Result<PushEvent, string>, body: Bytes)
    returns (o: Outcome<Bytes>)
    ensures o == Transformed(t, cancelled, decode, body)
  {
    if cancelled {
      return Returned(Ok([]));
    }
    var decoded := decode(body);
    if decoded.Err? {
      return Returned(Err(DecodeError(decoded.error)));
    }
    var ev := decoded.value;
    if t.haltOnMessage.Some? {
      if HeadMessage(ev).None? {
        return Panic;
      }
      if t.haltOnMessage.value(HeadMessage(ev).value) {
        return Returned(Err(HaltError));
      }
    }
    if t.haltOnAuthor.Some? {
      if HeadAuthor(ev).None? {
        return Panic;
      }
      if t.haltOnAuthor.value(HeadAuthor(ev).value) {
        return Returned(Err(HaltError));
      }
    }
    if ev.repoName.None? {
      return Panic;
    }
    var name := ev.repoName.value;
    var buf: Bytes := [];
    var hasUpdates := false;
    for i := 0 to |ev.commits|
      invariant hasUpdates <==> exists j :: 0 <= j < i && Updates(t.excludes, ev.commits[j])
    {
      var c := ev.commits[i];
      if !t.excludes.additions && |c.added| > 0 {
        hasUpdates := true;
      }
      if !t.excludes.modifications && |c.modified| > 0 {
        hasUpdates := true;
      }
      if !t.excludes.deletions && |c.removed| > 0 {
        hasUpdates := true;
      }
    }
    assert hasUpdates <==> HasUpdates(t.excludes, ev.commits);
    if hasUpdates {
      if t.prependMessage {
        if HeadMessage(ev).None? {
          return Panic;
        }
        buf := buf + MessageLine(HeadMessage(ev).value);
      }
      assert buf == (if t.prependMessage then MessageLine(HeadMessage(ev).value) else []);
      ghost var message := buf;
      if t.prependAuthor {
        if HeadAuthor(ev).None? {
          return Panic;
        }
        buf := buf + AuthorLine(HeadAuthor(ev).value);
      }
      assert buf == message + (if t.prependAuthor then AuthorLine(HeadAuthor(ev).value) else []);
      buf := buf + name;
      assert Writable(t, ev) && buf == RepoBody(t, ev);
    }
    return Returned(Ok(buf));
  }

  /** A panic happens only on a nil field that is read: the message or the author name
      when its halt pattern is set or it is prepended, or the repository name. An event
      with all three never panics. */
  lemma PanicOnlyOnNil(t: RepoTransformation, ev: PushEvent)
    ensures EventBody(t, ev).Panic? ==>
              (HeadMessage(ev).None? && (t.haltOnMessage.Some? || t.prependMessage)) ||
              (HeadAuthor(ev).None? && (t.haltOnAuthor.Some? || t.prependAuthor)) ||
              ev.repoName.None?
  {
  }

  /** The first read of each field is reached, so each of these panics: a nil message
      under `halt_on_message`; a nil author name under `halt_on_author` when the message
      did not halt; a nil repository name when no halt pattern matched. */
  lemma NilReadsPanic(t: RepoTransformation, ev: PushEvent)
    ensures t.haltOnMessage.Some? && HeadMessage(ev).None? ==> EventBody(t, ev) == Panic
    ensures !Matches(t.haltOnMessage, HeadMessage(ev)) && t.haltOnAuthor.Some? && HeadAuthor(ev).None? ==>
              EventBody(t, ev) == Panic
    ensures (!Matches(t.haltOnMessage, HeadMessage(ev)) && !Matches(t.haltOnAuthor, HeadAuthor(ev)) &&
             ev.repoName.None?) ==> EventBody(t, ev) == Panic
  {
  }

  /** A push that deletes a branch has no head commit and no updates: it panics exactly
      when a halt pattern is set or the repository name is nil, and otherwise gives an
      empty output. */
  lemma DeletedBranch(t: RepoTransformation, ev: PushEvent)
    requires ev.headCommit.None? && !HasUpdates(t.excludes, ev.commits)
    ensures EventBody(t, ev).Panic? <==> t.haltOnMessage.Some? || t.haltOnAuthor.Some? || ev.repoName.None?
    ensures !EventBody(t, ev).Panic? ==> EventBody(t, ev) == Returned(Ok([]))
  {
  }

  /** With every kind of change excluded there are never updates, so the output is empty
      whatever the push. */
  lemma ExcludeEverything(t: RepoTransformation, ev: PushEvent)
    requires t.excludes == Excludes(true, true, true) && ev.repoName.Some?
    ensures RepoBody(t, ev) == []
  {
  }

  /** A value that fits on one preamble line: no line break, and short enough for the
      scanner's buffer. */
  predicate OneLine(b: Bytes)
  {
    NL !in b && CR !in b && |b| + 9 < MaxScanTokenSize
  }

  /** Each prepended field is there and fits on one preamble line. */
  predicate PrependedOneLine(t: RepoTransformation, ev: PushEvent)
  {
    (t.prependMessage ==> HeadMessage(ev).Some? && OneLine(HeadMessage(ev).value)) &&
    (t.prependAuthor ==> HeadAuthor(ev).Some? && OneLine(HeadAuthor(ev).value))
  }

  /** A preamble line written with a key and a one-line value scans as one token, and
      the Lambda dispatcher reads that key and value back from it. */
  lemma PreambleToken(key: Bytes, value: Bytes)
    requires AwsDispatcher.IsKey(key) && |key| <= |AwsDispatcher.MessageKey| && OneLine(value)
    ensures AwsDispatcher.Preamble(PreambleLine(key, value)) == Some((key, value))
    ensures NL !in PreambleLine(key, value)
    ensures |PreambleLine(key, value)| < MaxScanTokenSize
    ensures DropCR(PreambleLine(key, value)) == PreambleLine(key, value)
  {
    var tok := PreambleLine(key, value);
    AwsDispatcher.PreambleComplete(tok, [], key, 32, value);
    assert tok[|tok| - 1] in tok;
  }

  /** The preamble lines `Transform` writes before the repository name. */
  function PreambleLines(t: RepoTransformation, ev: PushEvent): seq<Bytes>
    requires Prepended(t, ev)
  {
    (if t.prependMessage then [PreambleLine(AwsDispatcher.MessageKey, HeadMessage(ev).value)] else []) +
    (if t.prependAuthor then [PreambleLine(AwsDispatcher.AuthorKey, HeadAuthor(ev).value)] else [])
  }

  lemma RepoBodyLines(t: RepoTransformation, ev: PushEvent)
    requires Writable(t, ev) && HasUpdates(t.excludes, ev.commits)
    ensures RepoBody(t, ev) == JoinLines(PreambleLines(t, ev)) + ev.repoName.value
  {
    if t.prependMessage && t.prependAuthor {
      var m := PreambleLine(AwsDispatcher.MessageKey, HeadMessage(ev).value);
      var a := PreambleLine(AwsDispatcher.AuthorKey, HeadAuthor(ev).value);
      assert JoinLines([a]) == a + [NL];
      assert JoinLines([m, a]) == m + [NL] + (a + [NL]);
    } else if t.prependMessage {
      var m := PreambleLine(AwsDispatcher.MessageKey, HeadMessage(ev).value);
      assert JoinLines([m]) == m + [NL];
    } else if t.prependAuthor {
      var a := PreambleLine(AwsDispatcher.AuthorKey, HeadAuthor(ev).value);
      assert JoinLines([a]) == a + [NL];
    }
  }

  /** The scanner's tokens of the output: the preamble lines, then the name. */
  lemma RepoBodyTokens(t: RepoTransformation, ev: PushEvent)
    requires HasUpdates(t.excludes, ev.commits)
    requires PrependedOneLine(t, ev) && ev.repoName.Some? && OneLine(ev.repoName.value)
    ensures ScanLines(RepoBody(t, ev)) ==
            Scan(PreambleLines(t, ev) + (if ev.repoName.value == [] then [] else [ev.repoName.value]), false)
  {
    var name := ev.repoName.value;
    PreambleLinesFit(t, ev);
    RepoBodyLines(t, ev);
    if name != [] {
      assert name[|name| - 1] in name;
    }
    ScanJoinLast(PreambleLines(t, ev), name);
  }

  lemma PreambleLinesFit(t: RepoTransformation, ev: PushEvent)
    requires PrependedOneLine(t, ev)
    ensures forall l :: l in PreambleLines(t, ev) ==> NL !in l && |l| < MaxScanTokenSize && DropCR(l) == l
  {
    AwsDispatcher.KeysAreKeys();
    if t.prependMessage {
      PreambleToken(AwsDispatcher.MessageKey, HeadMessage(ev).value);
    }
    if t.prependAuthor {
      PreambleToken(AwsDispatcher.AuthorKey, HeadAuthor(ev).value);
    }
  }

  /** The preamble lines are preamble lines to the dispatcher, and do not halt it. */
  lemma PreambleLinesQuiet(t: RepoTransformation, ev: PushEvent, d: AwsDispatcher.LambdaDispatcher)
    requires PrependedOneLine(t, ev)
    requires t.prependMessage ==> !Matches(d.haltOnMessage, HeadMessage(ev))
    requires t.prependAuthor ==> !Matches(d.haltOnAuthor, HeadAuthor(ev))
    ensures forall l :: l in PreambleLines(t, ev) ==> AwsDispatcher.Preamble(l).Some? && !AwsDispatcher.Halts(d, l)
  {
    AwsDispatcher.KeysAreKeys();
    if t.prependMessage {
      PreambleToken(AwsDispatcher.MessageKey, HeadMessage(ev).value);
    }
    if t.prependAuthor {
      PreambleToken(AwsDispatcher.AuthorKey, HeadAuthor(ev).value);
    }
  }

  /** The repo transformation and the Lambda dispatcher fit together: when the Lambda
      dispatcher is configured with halt patterns that match neither the prepended message
      nor the prepended author name, and these and the repository name are single lines,
      the dispatcher's body processing drops the preamble and passes on exactly the
      repository name (or nothing, when the push had no updates). */
  lemma RepoBodyThroughLambda(t: RepoTransformation, ev: PushEvent, d: AwsDispatcher.LambdaDispatcher)
    requires d.haltOnMessage.Some? || d.haltOnAuthor.Some?
    requires PrependedOneLine(t, ev) && ev.repoName.Some? && OneLine(ev.repoName.value)
    requires AwsDispatcher.Preamble(ev.repoName.value).None?
    requires t.prependMessage ==> !Matches(d.haltOnMessage, HeadMessage(ev))
    requires t.prependAuthor ==> !Matches(d.haltOnAuthor, HeadAuthor(ev))
    ensures AwsDispatcher.ProcessedBody(d, RepoBody(t, ev)) ==
            Ok(if HasUpdates(t.excludes, ev.commits) then ev.repoName.value else [])
  {
    if HasUpdates(t.excludes, ev.commits) {
      var name := ev.repoName.value;
      var lines := PreambleLines(t, ev);
      var tail: seq<Bytes> := if name == [] then [] else [name];
      RepoBodyTokens(t, ev);
      PreambleLinesQuiet(t, ev, d);
      AwsDispatcher.SkipPreambles(d, lines, tail);
      if name != [] {
        assert tail[1..] == [];
        assert name + [] == name;
      }
    }
  }

  /** As written, a message of two lines leaks: its first line stays in the `#message`
      preamble line, its second line is a line of its own that the Lambda dispatcher keeps,
      so the payload is that second line glued to the repository name. */
  lemma MultiLineMessageLeaks(t: RepoTransformation, ev: PushEvent, d: AwsDispatcher.LambdaDispatcher,
                              first: Bytes, second: Bytes)
    requires d.haltOnMessage.Some? || d.haltOnAuthor.Some?
    requires HasUpdates(t.excludes, ev.commits) && t.prependMessage && !t.prependAuthor
    requires HeadMessage(ev) == Some(first + [NL] + second)
    requires OneLine(first) && OneLine(second) && AwsDispatcher.Preamble(second).None?
    requires ev.repoName.Some? && OneLine(ev.repoName.value) && AwsDispatcher.Preamble(ev.repoName.value).None?
    requires !Matches(d.haltOnMessage, Some(first))
    ensures AwsDispatcher.ProcessedBody(d, RepoBody(t, ev)) == Ok(second + ev.repoName.value)
    ensures second != [] ==> AwsDispatcher.ProcessedBody(d, RepoBody(t, ev)) != Ok(ev.repoName.value)
  {
    var name := ev.repoName.value;
    var m1 := PreambleLine(AwsDispatcher.MessageKey, first);
    var tail: seq<Bytes> := if name == [] then [] else [name];
    assert RepoBody(t, ev) == MessageLine(first + [NL] + second) + name;
    LeakTokens(first, second, name);
    AwsDispatcher.KeysAreKeys();
    PreambleToken(AwsDispatcher.MessageKey, first);
    LeakKept(d, m1, second, name);
  }

  /** The scanner's tokens of a `#message` line whose value holds one line break. */
  lemma LeakTokens(first: Bytes, second: Bytes, name: Bytes)
    requires OneLine(first) && OneLine(second) && OneLine(name)
    ensures ScanLines(MessageLine(first + [NL] + second) + name) ==
            Scan([PreambleLine(AwsDispatcher.MessageKey, first), second] + (if name == [] then [] else [name]), false)
  {
    var m1 := PreambleLine(AwsDispatcher.MessageKey, first);
    AwsDispatcher.KeysAreKeys();
    PreambleToken(AwsDispatcher.MessageKey, first);
    assert MessageLine(first + [NL] + second) == m1 + [NL] + (second + [NL]);
    assert JoinLines([second]) == second + [NL];
    assert JoinLines([m1, second]) == m1 + [NL] + (second + [NL]);
    if second != [] {
      assert second[|second| - 1] in second;
    }
    if name != [] {
      assert name[|name| - 1] in name;
    }
    ScanJoinLast([m1, second], name);
  }

  /** A quiet preamble line, then a plain line, then the name: the dispatcher keeps the
      plain line and the name. */
  lemma LeakKept(d: AwsDispatcher.LambdaDispatcher, m1: Bytes, second: Bytes, name: Bytes)
    requires AwsDispatcher.Preamble(m1).Some? && !AwsDispatcher.Halts(d, m1)
    requires AwsDispatcher.Preamble(second).None? && AwsDispatcher.Preamble(name).None?
    ensures AwsDispatcher.ProcessLines(d, [m1, second] + (if name == [] then [] else [name])) == Ok(second + name)
  {
    var tail: seq<Bytes> := if name == [] then [] else [name];
    assert [m1, second] + tail == [m1] + ([second] + tail);
    AwsDispatcher.SkipPreambles(d, [m1], [second] + tail);
    assert ([second] + tail)[1..] == tail;
    assert !AwsDispatcher.Halts(d, second);
    assert AwsDispatcher.ProcessLines(d, tail) == Ok(name) by {
      if name != [] {
        assert !AwsDispatcher.Halts(d, name);
        assert tail[1..] == [];
        assert name + [] == name;
      }
    }
  }

  /** Line breaks in a value written as spaces; every other byte is kept. */
  function Flatten(b: Bytes): (r: Bytes)
    ensures |r| == |b| && NL !in r && CR !in r
    ensures forall i :: 0 <= i < |b| && b[i] != NL && b[i] != CR ==> r[i] == b[i]
  {
    seq(|b|, i requires 0 <= i < |b| => if b[i] == NL || b[i] == CR then 32 else b[i])
  }

  function FlattenField(v: Option<Bytes>): Option<Bytes>
  {
    if v.Some? then Some(Flatten(v.value)) else None
  }

  /** The event with its head commit's message and author name flattened. */
  function Flattened(ev: PushEvent): PushEvent
  {
    match ev.headCommit
    case None => ev
    case Some(h) => ev.(headCommit := Some(h.(message := FlattenField(h.message), author := FlattenField(h.author))))
  }

  /** The output with the prepended message and author name written on one line each:
      what the preamble format calls for. */
  function CorrectedRepoBody(t: RepoTransformation, ev: PushEvent): Bytes
    requires Writable(t, ev)
  {
    RepoBody(t, Flattened(ev))
  }

  /** With the fields flattened, the preamble survives any message and author name that
      fit the scanner's buffer: the Lambda dispatcher passes on exactly the repository
      name. */
  lemma CorrectedRepoBodyThroughLambda(t: RepoTransformation, ev: PushEvent, d: AwsDispatcher.LambdaDispatcher)
    requires d.haltOnMessage.Some? || d.haltOnAuthor.Some?
    requires t.prependMessage ==> HeadMessage(ev).Some? && |HeadMessage(ev).value| + 9 < MaxScanTokenSize
    requires t.prependAuthor ==> HeadAuthor(ev).Some? && |HeadAuthor(ev).value| + 9 < MaxScanTokenSize
    requires ev.repoName.Some? && OneLine(ev.repoName.value) && AwsDispatcher.Preamble(ev.repoName.value).None?
    requires t.prependMessage ==> !Matches(d.haltOnMessage, FlattenField(HeadMessage(ev)))
    requires t.prependAuthor ==> !Matches(d.haltOnAuthor, FlattenField(HeadAuthor(ev)))
    ensures AwsDispatcher.ProcessedBody(d, CorrectedRepoBody(t, ev)) ==
            Ok(if HasUpdates(t.excludes, ev.commits) then ev.repoName.value else [])
  {
    var fl := Flattened(ev);
    assert HeadMessage(fl) == FlattenField(HeadMessage(ev));
    assert HeadAuthor(fl) == FlattenField(HeadAuthor(ev));
    RepoBodyThroughLambda(t, fl, d);
  }
}
