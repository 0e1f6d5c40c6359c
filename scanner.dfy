/**
 * Go's `bufio.Scanner` with its default split function `ScanLines`, which both the
 * Lambda dispatcher's `processBody` and the pubsub dispatcher's `dispatchLines`
 * use: tokens are the lines of the input without their "\n" and without one
 * trailing "\r"; a final line without "\n" is a token when it is not empty; and a
 * line that does not fit in the scanner's 64 KiB buffer stops the scan with an error.
 */
module Scanner {
  import opened Common

  const NL: byte := 10
  const CR: byte := 13

  /** `bufio.MaxScanTokenSize`: a line of this many bytes or more (before its "\n")
      cannot be held in the buffer and ends the scan with `bufio.ErrTooLong`. */
  const MaxScanTokenSize: nat := 65536

  /** The scanner's tokens, and whether it stopped with an error. */
  datatype Scan = Scan(tokens: seq<Bytes>, tooLong: bool)

  /** The index of the first "\n" in `s`, or |s| when there is none. */
  function LineEnd(s: Bytes): (i: nat)
    ensures i <= |s|
    ensures NL !in s[..i]
    ensures i < |s| ==> s[i] == NL
  {
    if s == [] then 0
    else if s[0] == NL then 0
    else 1 + LineEnd(s[1..])
  }

  /** `dropCR`: one trailing "\r" is removed. */
  function DropCR(line: Bytes): (r: Bytes)
    ensures r == line || (line == r + [CR])
  {
    if |line| > 0 && line[|line| - 1] == CR then line[..|line| - 1] else line
  }

  function ScanLines(body: Bytes): (r: Scan)
    ensures forall t :: t in r.tokens ==> NL !in t
    decreases |body|
  {
    if body == [] then Scan([], false)
    else
      var i := LineEnd(body);
      if i >= MaxScanTokenSize then Scan([], true)
      else
        var rest := if i == |body| then Scan([], false) else ScanLines(body[i + 1..]);
        Scan([DropCR(body[..i])] + rest.tokens, rest.tooLong)
  }

  /** A line that ends in "\n" is one token, and scanning resumes after it. */
  lemma ScanLine(line: Bytes, rest: Bytes)
    requires NL !in line && |line| < MaxScanTokenSize
    ensures ScanLines(line + [NL] + rest) == Scan([DropCR(line)] + ScanLines(rest).tokens, ScanLines(rest).tooLong)
  {
    var body := line + [NL] + rest;
    LineEndAt(line, rest);
    assert body[..|line|] == line;
    assert body[|line| + 1..] == rest;
  }

  /** A non-empty last line without "\n" is the final token. */
  lemma ScanLastLine(line: Bytes)
    requires NL !in line && 0 < |line| < MaxScanTokenSize
    ensures ScanLines(line) == Scan([DropCR(line)], false)
  {
    LineEndWhole(line);
    var i := LineEnd(line);
    assert line[..i] == line;
  }

  lemma {:induction false} LineEndAt(line: Bytes, rest: Bytes)
    requires NL !in line
    ensures LineEnd(line + [NL] + rest) == |line|
  {
    if line != [] {
      assert (line + [NL] + rest)[1..] == line[1..] + [NL] + rest;
      LineEndAt(line[1..], rest);
    }
  }

  lemma {:induction false} LineEndWhole(line: Bytes)
    requires NL !in line
    ensures LineEnd(line) == |line|
  {
    if line != [] {
      LineEndWhole(line[1..]);
    }
  }

  /** A line of the maximum token size or longer stops the scan: the tokens before it
      are delivered, nothing from it or after it is, and the scanner reports an error. */
  lemma {:induction false} ScanStopsAtLongLine(before: seq<Bytes>, long: Bytes, rest: Bytes)
    requires forall t :: t in before ==> NL !in t && |t| < MaxScanTokenSize
    requires NL !in long && |long| >= MaxScanTokenSize
    ensures ScanLines(JoinLines(before) + long + rest) == Scan(DropAll(before), true)
    decreases |before|
  {
    if before == [] {
      LineEndPrefix(long, rest);
    } else {
      var t := before[0];
      assert JoinLines(before) + long + rest == t + [NL] + (JoinLines(before[1..]) + long + rest);
      ScanLine(t, JoinLines(before[1..]) + long + rest);
      ScanStopsAtLongLine(before[1..], long, rest);
    }
  }

  lemma {:induction false} LineEndPrefix(long: Bytes, rest: Bytes)
    requires NL !in long
    ensures LineEnd(long + rest) >= |long|
  {
    if long != [] {
      assert (long + rest)[1..] == long[1..] + rest;
      LineEndPrefix(long[1..], rest);
    }
  }

  /** Lines each followed by "\n". */
  function JoinLines(lines: seq<Bytes>): (r: Bytes)
  {
    if lines == [] then [] else lines[0] + [NL] + JoinLines(lines[1..])
  }

  function DropAll(lines: seq<Bytes>): (r: seq<Bytes>)
    ensures |r| == |lines|
    ensures forall i :: 0 <= i < |lines| ==> r[i] == DropCR(lines[i])
  {
    if lines == [] then [] else [DropCR(lines[0])] + DropAll(lines[1..])
  }

  /** The inverse direction: lines written one per "\n" scan back to themselves, with
      no error, when none holds "\n", ends in "\r" or exceeds the buffer. */
  lemma {:induction false} ScanJoinLines(lines: seq<Bytes>)
    requires forall t :: t in lines ==> NL !in t && |t| < MaxScanTokenSize && DropCR(t) == t
    ensures ScanLines(JoinLines(lines)) == Scan(lines, false)
  {
    if lines != [] {
      var t := lines[0];
      assert JoinLines(lines) == t + [NL] + JoinLines(lines[1..]);
      ScanLine(t, JoinLines(lines[1..]));
      ScanJoinLines(lines[1..]);
      assert lines == [t] + lines[1..];
    }
  }

  /** Lines each followed by "\n", then a last line without one: the last line is a
      token of its own when it is not empty. */
  lemma {:induction false} ScanJoinLast(lines: seq<Bytes>, last: Bytes)
    requires forall t :: t in lines ==> NL !in t && |t| < MaxScanTokenSize && DropCR(t) == t
    requires NL !in last && |last| < MaxScanTokenSize && DropCR(last) == last
    ensures ScanLines(JoinLines(lines) + last) == Scan(lines + (if last == [] then [] else [last]), false)
  {
    var tail: seq<Bytes> := if last == [] then [] else [last];
    if lines == [] {
      assert JoinLines(lines) + last == last;
      if last != [] {
        ScanLastLine(last);
      }
    } else {
      var t, j := lines[0], JoinLines(lines[1..]);
      JoinLinesCons(lines, last);
      ScanLine(t, j + last);
      ScanJoinLast(lines[1..], last);
      ConsAppend(lines, tail);
    }
  }

  lemma JoinLinesCons(lines: seq<Bytes>, last: Bytes)
    requires lines != []
    ensures JoinLines(lines) + last == lines[0] + [NL] + (JoinLines(lines[1..]) + last)
  {
  }
}
