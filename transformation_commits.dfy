/**
 * The GitHub commits transformation: a push event becomes CSV rows of
 * (head commit id, repository name, path), one row per path the push touched in a
 * kind of change that is not excluded. The CSV encoding of the rows is not modelled:
 * the output is the sequence of rows the writer receives.
 */
module GitHubCommitsTransformation {
  import opened Common
  import opened GitHubEvent

  datatype CommitsTransformation = CommitsTransformation(excludes: Excludes)

  /** `NewGitHubCommitsTransformation`: the three exclude flags, nothing else. */
  function NewCommitsTransformation(uri: Uri): (r: Result<CommitsTransformation, string>)
    ensures r.Ok? <==> ExcludeFlags(uri.query).Ok?
    ensures r.Ok? ==> r.value.excludes == ExcludeFlags(uri.query).value
    ensures r.Err? ==> r.error == ExcludeFlags(uri.query).error
  {
    match ExcludeFlags(uri.query)
    case Err(e) => Err(e)
    case Ok(x) => Ok(CommitsTransformation(x))
  }

  /** A CSV record of three fields. */
  type Row = seq<Bytes>

  /** One row per path, in the order of the paths. */
  function PathRows(hash: Bytes, name: Bytes, paths: seq<Bytes>): (rows: seq<Row>)
  {
    if paths == [] then [] else [[hash, name, paths[0]]] + PathRows(hash, name, paths[1..])
  }

  /** The rows of one commit: its added, then modified, then removed paths, each unless
      excluded. */
  function CommitRows(x: Excludes, hash: Bytes, name: Bytes, c: Commit): seq<Row>
  {
    (if !x.additions then PathRows(hash, name, c.added) else []) +
    (if !x.modifications then PathRows(hash, name, c.modified) else []) +
    (if !x.deletions then PathRows(hash, name, c.removed) else [])
  }

  /** The rows of all commits, commit by commit. */
  function Rows(x: Excludes, hash: Bytes, name: Bytes, commits: seq<Commit>): seq<Row>
  {
    if commits == [] then [] else CommitRows(x, hash, name, commits[0]) + Rows(x, hash, name, commits[1..])
  }

  /** `Transform`. A cancelled context gives no output and no error; a body that is not a
      push event is error 999 with the decoder's text. The repository name and the head
      commit's id are then read unconditionally, so a push without either (a push that
      deletes a branch has no head commit) panics. Every row carries the head commit's id,
      not the id of the commit the path belongs to. */
  function Transformed(t: CommitsTransformation, cancelled: bool, decode: Bytes -> Result<PushEvent, string>, body: Bytes)
    : (o: Outcome<seq<Row>>)
    ensures o.Panic? <==>
              !cancelled && decode(body).Ok? &&
              (decode(body).value.repoName.None? || HeadId(decode(body).value).None?)
    ensures cancelled ==> o == Returned(Ok([]))
    ensures !cancelled && decode(body).Err? ==> o == Returned(Err(DecodeError(decode(body).error)))
    ensures !cancelled && decode(body).Ok? && decode(body).value.repoName.Some? &&
            HeadId(decode(body).value).Some? ==>
              o == Returned(Ok(Rows(t.excludes, HeadId(decode(body).value).value,
                                    decode(body).value.repoName.value, decode(body).value.commits)))
  {
    if cancelled then Returned(Ok([]))
    else match decode(body)
      case Err(e) => Returned(Err(DecodeError(e)))
      case Ok(ev) =>
        if ev.repoName.None? || HeadId(ev).None? then Panic
        else Returned(Ok(Rows(t.excludes, HeadId(ev).value, ev.repoName.value, ev.commits)))
  }

  /** A push that deletes a branch, having no head commit, always panics once decoded. */
  lemma DeletedBranchPanics(t: CommitsTransformation, decode: Bytes -> Result<PushEvent, string>, body: Bytes)
    requires decode(body).Ok? && decode(body).value.headCommit.None?
    ensures Transformed(t, false, decode, body) == Panic
  {
  }

  lemma {:induction false} RowsAppend(x: Excludes, hash: Bytes, name: Bytes, commits: seq<Commit>, c: Commit)
    ensures Rows(x, hash, name, commits + [c]) == Rows(x, hash, name, commits) + CommitRows(x, hash, name, c)
  {
    if commits == [] {
      assert commits + [c] == [c];
      assert Rows(x, hash, name, [c]) == CommitRows(x, hash, name, c) + Rows(x, hash, name, []);
    } else {
      assert (commits + [c])[1..] == commits[1..] + [c];
      RowsAppend(x, hash, name, commits[1..], c);
    }
  }

  lemma {:induction false} PathRowsAppend(hash: Bytes, name: Bytes, paths: seq<Bytes>, p: Bytes)
    ensures PathRows(hash, name, paths + [p]) == PathRows(hash, name, paths) + [[hash, name, p]]
  {
    if paths == [] {
      assert paths + [p] == [p];
    } else {
      assert (paths + [p])[1..] == paths[1..] + [p];
      PathRowsAppend(hash, name, paths[1..], p);
    }
  }

  /** The loop over one list of paths, writing a row per path. */
  method WritePaths(rows: seq<Row>, hash: Bytes, name: Bytes, paths: seq<Bytes>) returns (out: seq<Row>)
    ensures out == rows + PathRows(hash, name, paths)
  {
    out := rows;
    for j := 0 to |paths|
      invariant out == rows + PathRows(hash, name, paths[..j])
    {
      assert paths[..j + 1] == paths[..j] + [paths[j]];
      PathRowsAppend(hash, name, paths[..j], paths[j]);
      out := out + [[hash, name, paths[j]]];
    }
    assert paths[..|paths|] == paths;
  }

  /** The body of the loop over the commits: the added, modified and removed paths that
      are not excluded, in that order. */
  method WriteCommit(rows: seq<Row>, x: Excludes, hash: Bytes, name: Bytes, c: Commit) returns (out: seq<Row>)
    ensures out == rows + CommitRows(x, hash, name, c)
  {
    var a := if !x.additions then PathRows(hash, name, c.added) else [];
    var m := if !x.modifications then PathRows(hash, name, c.modified) else [];
    var d := if !x.deletions then PathRows(hash, name, c.removed) else [];
    out := rows;
    if !x.additions {
      out := WritePaths(out, hash, name, c.added);
    } else {
      assert out == rows + a;
    }
    ghost var afterA := out;
    if !x.modifications {
      out := WritePaths(out, hash, name, c.modified);
    } else {
      assert out == afterA + m;
    }
    ghost var afterM := out;
    if !x.deletions {
      out := WritePaths(out, hash, name, c.removed);
    } else {
      assert out == afterM + d;
    }
    AppendAssoc3(rows, a, m, d);
  }

  lemma AppendAssoc3<T>(s: seq<T>, a: seq<T>, m: seq<T>, d: seq<T>)
    ensures s + a + m + d == s + (a + m + d)
  {
  }

  /** `Transform`: the loop over the commits, with a loop per kind of change. */
  method Transform(t: CommitsTransformation, cancelled: bool, decode: Bytes -> Result<PushEvent, string>, body: Bytes)
    returns (o: Outcome<seq<Row>>)
    ensures o == Transformed(t, cancelled, decode, body)
  {
    if cancelled {
      return Returned(Ok([]));
    }
    var decoded := decode(body);
    if decoded.Err? {
      return Returned(Err(DecodeError(decoded.error)));
    }
    var ev := decoded.value;
    if ev.repoName.None? || HeadId(ev).None? {
      return Panic;
    }
    var name, hash := ev.repoName.value, HeadId(ev).value;
    var rows: seq<Row> := [];
    for i := 0 to |ev.commits|
      invariant rows == Rows(t.excludes, hash, name, ev.commits[..i])
    {
      var c := ev.commits[i];
      rows := WriteCommit(rows, t.excludes, hash, name, c);
      assert ev.commits[..i + 1] == ev.commits[..i] + [c];
      RowsAppend(t.excludes, hash, name, ev.commits[..i], c);
    }
    assert ev.commits[..|ev.commits|] == ev.commits;
    return Returned(Ok(rows));
  }

  /** The paths the rows carry, in row order: the added, modified and removed paths that are
      not excluded, commit by commit. */
  function IncludedPaths(x: Excludes, commits: seq<Commit>): seq<Bytes>
  {
    if commits == [] then []
    else
      var c := commits[0];
      (if !x.additions then c.added else []) +
      (if !x.modifications then c.modified else []) +
      (if !x.deletions then c.removed else []) +
      IncludedPaths(x, commits[1..])
  }

  lemma {:induction false} PathRowsConcat(hash: Bytes, name: Bytes, a: seq<Bytes>, b: seq<Bytes>)
    ensures PathRows(hash, name, a + b) == PathRows(hash, name, a) + PathRows(hash, name, b)
  {
    if a == [] {
      assert a + b == b;
    } else {
      assert (a + b)[1..] == a[1..] + b;
      PathRowsConcat(hash, name, a[1..], b);
    }
  }

  /** The rows are exactly one row (head commit id, repository name, path) per included path,
      in order. */
  lemma {:induction false} RowsArePathRows(x: Excludes, hash: Bytes, name: Bytes, commits: seq<Commit>)
    ensures Rows(x, hash, name, commits) == PathRows(hash, name, IncludedPaths(x, commits))
  {
    if commits != [] {
      var c := commits[0];
      var a := if !x.additions then c.added else [];
      var m := if !x.modifications then c.modified else [];
      var d := if !x.deletions then c.removed else [];
      var rest := IncludedPaths(x, commits[1..]);
      RowsArePathRows(x, hash, name, commits[1..]);
      PathRowsConcat(hash, name, a, m);
      PathRowsConcat(hash, name, a + m, d);
      PathRowsConcat(hash, name, a + m + d, rest);
      assert PathRows(hash, name, []) == [];
    }
  }

  /** Every row has three fields: the given hash, the given name and a path. */
  lemma {:induction false} PathRowsShape(hash: Bytes, name: Bytes, paths: seq<Bytes>)
    ensures |PathRows(hash, name, paths)| == |paths|
    ensures forall i :: 0 <= i < |paths| ==> PathRows(hash, name, paths)[i] == [hash, name, paths[i]]
  {
    if paths != [] {
      PathRowsShape(hash, name, paths[1..]);
    }
  }

  /** The number of paths a commit contributes. */
  function Included(x: Excludes, c: Commit): nat
  {
    (if !x.additions then |c.added| else 0) +
    (if !x.modifications then |c.modified| else 0) +
    (if !x.deletions then |c.removed| else 0)
  }

  function Total(x: Excludes, commits: seq<Commit>): nat
  {
    if commits == [] then 0 else Included(x, commits[0]) + Total(x, commits[1..])
  }

  /** The transformation's rows: each of three fields, the i-th carrying the head commit id,
      the repository name and the i-th included path; as many as the lengths of the lists
      that are not excluded add up to. */
  lemma RowsShape(x: Excludes, hash: Bytes, name: Bytes, commits: seq<Commit>)
    ensures |Rows(x, hash, name, commits)| == Total(x, commits)
    ensures |IncludedPaths(x, commits)| == Total(x, commits)
    ensures forall i :: 0 <= i < |Rows(x, hash, name, commits)| ==>
              Rows(x, hash, name, commits)[i] == [hash, name, IncludedPaths(x, commits)[i]]
  {
    RowsArePathRows(x, hash, name, commits);
    PathRowsShape(hash, name, IncludedPaths(x, commits));
    IncludedLength(x, commits);
  }

  lemma {:induction false} IncludedLength(x: Excludes, commits: seq<Commit>)
    ensures |IncludedPaths(x, commits)| == Total(x, commits)
  {
    if commits != [] {
      IncludedLength(x, commits[1..]);
    }
  }

  /** Excluding every kind of change leaves no rows. */
  lemma {:induction false} ExcludeEverything(hash: Bytes, name: Bytes, commits: seq<Commit>)
    ensures Rows(Excludes(true, true, true), hash, name, commits) == []
  {
    if commits != [] {
      ExcludeEverything(hash, name, commits[1..]);
    }
  }
}
