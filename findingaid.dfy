/**
 * The finding-aid dispatcher. It reads the CSV rows the GitHub commits transformation
 * writes (commit hash, repository name, path) and indexes, for each row, a small
 * feature holding the id parsed from the path and the repository name.
 */
module FindingAid {
  import opened Common

  /** A value of the feature's `properties`. */
  datatype Property = IntProperty(i: int) | StringProperty(s: Bytes)

  /** The feature handed to the indexer. */
  datatype Feature = Feature(kind: string, properties: map<string, Property>)

  /** The dispatcher: the indexer's URI and the optional ACL for its writes. */
  datatype FindingAidDispatcher = FindingAidDispatcher(indexerUri: Uri, acl: string)

  /** The indexer's URI: scheme `repo`, the cache, and the `null://` iterator (query keys in
      the sorted order `url.Values.Encode` writes them). */
  function IndexerUri(cache: string): (u: Uri)
    ensures u.scheme == "repo" && Get(u.query, "cache") == cache && Get(u.query, "iterator") == "null://"
  {
    Uri("repo", "", [("cache", cache), ("iterator", "null://")])
  }

  /** `NewFindingAidRepoDispatcher`: `?cache=` is required; the indexer is a `repo://`
      indexer writing to that cache, with the no-op `null://` iterator; `newIndexer`
      says whether the indexer can be created for a URI. */
  function NewFindingAidDispatcher(uri: Uri, newIndexer: Uri -> bool): (r: Result<FindingAidDispatcher, string>)
    ensures Get(uri.query, "cache") == "" ==> r == Err("missing ?cache= parameter")
    ensures r.Ok? <==> Get(uri.query, "cache") != "" && newIndexer(IndexerUri(Get(uri.query, "cache")))
    ensures r.Ok? ==>
              r.value.indexerUri == IndexerUri(Get(uri.query, "cache")) &&
              r.value.acl == Get(uri.query, "acl")
  {
    var cache := Get(uri.query, "cache");
    if cache == "" then Err("missing ?cache= parameter")
    else
      var idx := IndexerUri(cache);
      if !newIndexer(idx) then Err("Failed to create indexer")
      else Ok(FindingAidDispatcher(idx, Get(uri.query, "acl")))
  }

  /** The CSV records the reader finds in the body, in order, and whether the body goes on
      with a record the reader cannot parse instead of ending. */
  datatype CsvInput = CsvInput(records: seq<seq<Bytes>>, malformed: bool)

  datatype Read = Record(row: seq<Bytes>) | EOF | ReadError

  /** `csv.Reader.Read` for the i-th call. The reader fixes the field count at that of the
      first record, so a later record with a different count is an error. */
  function ReadAt(input: CsvInput, i: nat): (r: Read)
    requires i <= |input.records|
  {
    if i == |input.records| then (if input.malformed then ReadError else EOF)
    else if i > 0 && |input.records[i]| != |input.records[0]| then ReadError
    else Record(input.records[i])
  }

  /** `dispatchRow` up to the index call: a cancelled context skips the row; otherwise the
      row must have three columns and its path must parse, and the feature carries the
      parsed id and the repository. `parseId` is `uri.ParseURI`'s id, when it parses. */
  function RowFeature(cancelled: bool, parseId: Bytes -> Option<int>, row: seq<Bytes>)
    : (r: Result<Option<Feature>, string>)
    ensures cancelled ==> r == Ok(None)
    ensures !cancelled ==> (r.Ok? <==> |row| == 3 && parseId(row[2]).Some?)
    ensures !cancelled && r.Ok? ==>
              && r.value.Some?
              && r.value.value.kind == "Feature"
              && r.value.value.properties.Keys == {"wof:id", "wof:repo"}
              && r.value.value.properties["wof:id"] == IntProperty(parseId(row[2]).value)
              && r.value.value.properties["wof:repo"] == StringProperty(row[1])
  {
    if cancelled then Ok(None)
    else if |row| != 3 then Err("Invalid column count for row")
    else match parseId(row[2])
      case None => Err("Failed to parse path")
      case Some(id) => Ok(Some(Feature("Feature", map["wof:id" := IntProperty(id), "wof:repo" := StringProperty(row[1])])))
  }

  /** The commit hash in the first column plays no part. */
  lemma RowIgnoresHash(cancelled: bool, parseId: Bytes -> Option<int>, row: seq<Bytes>, hash: Bytes)
    requires |row| == 3
    ensures RowFeature(cancelled, parseId, row[0 := hash]) == RowFeature(cancelled, parseId, row)
  {
  }

  const RowError := WebhookError(Status(999), "Failed to dispatch row")
  const ReadFailure := WebhookError(Status(999), "Failed to read row")

  /** The findingaid indexer, as far as the dispatcher sees it: it records each feature and
      fails those in `failing`. */
  class Indexer {
    var indexed: seq<Feature>
    const failing: set<Feature>

    constructor (failing: set<Feature>)
      ensures this.failing == failing && indexed == []
    {
      this.failing := failing;
      indexed := [];
    }

    method IndexReader(f: Feature) returns (ok: bool)
      modifies this
      ensures indexed == old(indexed) + [f]
      ensures ok <==> f !in failing
    {
      indexed := indexed + [f];
      ok := f !in failing;
    }
  }

  /** The outcome of `Dispatch` from the i-th read on: the features handed to the indexer
      and the error, if any. */
  datatype Outcome = Outcome(indexed: seq<Feature>, err: Option<WebhookError>)

  function DispatchFrom(input: CsvInput, i: nat, cancelled: bool, parseId: Bytes -> Option<int>,
                        failing: set<Feature>): (o: Outcome)
    requires i <= |input.records|
    decreases |input.records| - i
  {
    match ReadAt(input, i)
    case EOF => Outcome([], None)
    case ReadError => Outcome([], Some(ReadFailure))
    case Record(row) =>
      match RowFeature(cancelled, parseId, row)
      case Err(_) => Outcome([], Some(RowError))
      case Ok(None) => DispatchFrom(input, i + 1, cancelled, parseId, failing)
      case Ok(Some(f)) =>
        if f in failing then Outcome([f], Some(RowError))
        else
          var rest := DispatchFrom(input, i + 1, cancelled, parseId, failing);
          Outcome([f] + rest.indexed, rest.err)
  }

  /** `Dispatch`: read the rows in order and index each, until the input ends; the first
      read error or row error is error 999 and ends the loop. A cancelled context does not
      end the loop (its `break` leaves only the `select`); each row is then skipped. */
  method Dispatch(idx: Indexer, cancelled: bool, parseId: Bytes -> Option<int>, input: CsvInput)
    returns (err: Option<WebhookError>)
    modifies idx
    ensures var o := DispatchFrom(input, 0, cancelled, parseId, idx.failing);
            idx.indexed == old(idx.indexed) + o.indexed && err == o.err
  {
    var i := 0;
    ghost var done: seq<Feature> := [];
    ghost var o := DispatchFrom(input, 0, cancelled, parseId, idx.failing);
    while true
      invariant i <= |input.records|
      invariant idx.indexed == old(idx.indexed) + done
      invariant o.indexed == done + DispatchFrom(input, i, cancelled, parseId, idx.failing).indexed
      invariant o.err == DispatchFrom(input, i, cancelled, parseId, idx.failing).err
      decreases |input.records| - i
    {
      var read := ReadAt(input, i);
      if read.EOF? {
        break;
      }
      if read.ReadError? {
        return Some(ReadFailure);
      }
      var row := read.row;
      var dispatched := DispatchRow(idx, cancelled, parseId, row);
      if dispatched.Err? {
        return Some(RowError);
      }
      ghost var rest := DispatchFrom(input, i + 1, cancelled, parseId, idx.failing);
      if RowFeature(cancelled, parseId, row).value.Some? {
        ghost var f := RowFeature(cancelled, parseId, row).value.value;
        assert done + ([f] + rest.indexed) == (done + [f]) + rest.indexed;
        done := done + [f];
      }
      i := i + 1;
    }
    assert done + [] == done;
    return None;
  }

  /** A row that a live dispatch reads, turns into a feature and indexes without error. */
  predicate GoodRow(input: CsvInput, parseId: Bytes -> Option<int>, failing: set<Feature>, j: nat)
  {
    && j < |input.records|
    && |input.records[j]| == 3
    && parseId(input.records[j][2]).Some?
    && RowFeature(false, parseId, input.records[j]).value.value !in failing
  }

  /** The features of the rows from the i-th to before the k-th, for the rows that give one. */
  function FeaturesBetween(input: CsvInput, parseId: Bytes -> Option<int>, i: nat, k: nat): seq<Feature>
    requires i <= k <= |input.records|
    decreases k - i
  {
    if i == k then []
    else
      var here := match RowFeature(false, parseId, input.records[i])
        case Ok(Some(f)) => [f]
        case _ => [];
      here + FeaturesBetween(input, parseId, i + 1, k)
  }

  /** Good rows each give their feature: one per row, in row order. */
  lemma {:induction false} FeaturesBetweenGood(input: CsvInput, parseId: Bytes -> Option<int>, failing: set<Feature>,
                                               i: nat, k: nat)
    requires i <= k <= |input.records|
    requires forall j :: i <= j < k ==> GoodRow(input, parseId, failing, j)
    ensures |FeaturesBetween(input, parseId, i, k)| == k - i
    ensures forall j :: i <= j < k ==>
              RowFeature(false, parseId, input.records[j]) == Ok(Some(FeaturesBetween(input, parseId, i, k)[j - i]))
    decreases k - i
  {
    if i < k {
      assert GoodRow(input, parseId, failing, i);
      FeaturesBetweenGood(input, parseId, failing, i + 1, k);
    }
  }

  lemma GoodRowStep(input: CsvInput, parseId: Bytes -> Option<int>, failing: set<Feature>, i: nat)
    requires GoodRow(input, parseId, failing, 0) && GoodRow(input, parseId, failing, i)
    ensures var o, next := DispatchFrom(input, i, false, parseId, failing), DispatchFrom(input, i + 1, false, parseId, failing);
            && o.indexed == [RowFeature(false, parseId, input.records[i]).value.value] + next.indexed
            && o.err == next.err
  {
    assert ReadAt(input, i) == Record(input.records[i]);
  }

  /** A run of good rows is indexed in order, one feature per row, and the dispatch goes on
      after them as it would from there. */
  lemma {:induction false} GoodRowsIndexed(input: CsvInput, parseId: Bytes -> Option<int>, failing: set<Feature>,
                                           i: nat, k: nat)
    requires i <= k <= |input.records|
    requires forall j :: 0 <= j < k ==> GoodRow(input, parseId, failing, j)
    ensures var o, rest := DispatchFrom(input, i, false, parseId, failing), DispatchFrom(input, k, false, parseId, failing);
            && o.indexed == FeaturesBetween(input, parseId, i, k) + rest.indexed
            && o.err == rest.err
    decreases k - i
  {
    if i < k {
      assert GoodRow(input, parseId, failing, 0) && GoodRow(input, parseId, failing, i);
      GoodRowStep(input, parseId, failing, i);
      GoodRowsIndexed(input, parseId, failing, i + 1, k);
      var f := RowFeature(false, parseId, input.records[i]).value.value;
      AppendAssoc([f], FeaturesBetween(input, parseId, i + 1, k), DispatchFrom(input, k, false, parseId, failing).indexed);
    }
  }

  /** A body whose rows are all good indexes every row, in order, and succeeds. */
  lemma AllRowsIndexed(input: CsvInput, parseId: Bytes -> Option<int>, failing: set<Feature>)
    requires !input.malformed
    requires forall j :: 0 <= j < |input.records| ==> GoodRow(input, parseId, failing, j)
    ensures var o := DispatchFrom(input, 0, false, parseId, failing);
            && o.err == None
            && |o.indexed| == |input.records|
            && forall j :: 0 <= j < |input.records| ==> RowFeature(false, parseId, input.records[j]) == Ok(Some(o.indexed[j]))
  {
    var n := |input.records|;
    assert DispatchFrom(input, n, false, parseId, failing) == Outcome([], None);
    GoodRowsIndexed(input, parseId, failing, 0, n);
    FeaturesBetweenGood(input, parseId, failing, 0, n);
    assert FeaturesBetween(input, parseId, 0, n) + [] == FeaturesBetween(input, parseId, 0, n);
  }

  /** The first row that has the right field count for the reader but is rejected (three
      columns are required and the path must parse) ends the dispatch with error 999, after
      the rows before it were indexed and before anything after it is read. */
  lemma FirstBadRowStops(input: CsvInput, parseId: Bytes -> Option<int>, failing: set<Feature>, k: nat)
    requires k < |input.records|
    requires forall j :: 0 <= j < k ==> GoodRow(input, parseId, failing, j)
    requires k == 0 || |input.records[k]| == |input.records[0]|
    requires RowFeature(false, parseId, input.records[k]).Err?
    ensures var o := DispatchFrom(input, 0, false, parseId, failing);
            && o.err == Some(RowError)
            && |o.indexed| == k
            && forall j :: 0 <= j < k ==> RowFeature(false, parseId, input.records[j]) == Ok(Some(o.indexed[j]))
  {
    GoodRowsIndexed(input, parseId, failing, 0, k);
    FeaturesBetweenGood(input, parseId, failing, 0, k);
    assert ReadAt(input, k) == Record(input.records[k]);
    assert DispatchFrom(input, k, false, parseId, failing) == Outcome([], Some(RowError));
    assert FeaturesBetween(input, parseId, 0, k) + [] == FeaturesBetween(input, parseId, 0, k);
  }

  /** After the first record, a record with a field count other than the first's is the
      reader's error: error 999, whatever the context. */
  lemma FieldCountIsReadError(input: CsvInput, cancelled: bool, parseId: Bytes -> Option<int>,
                              failing: set<Feature>, k: nat)
    requires 0 < k < |input.records| && |input.records[k]| != |input.records[0]|
    ensures DispatchFrom(input, k, cancelled, parseId, failing) == Outcome([], Some(ReadFailure))
  {
  }

  /** Under a cancelled context nothing is indexed; the loop still reads every record, so the
      dispatch fails only when the reader does. */
  lemma {:induction false} CancelledIndexesNothing(input: CsvInput, parseId: Bytes -> Option<int>,
                                                   failing: set<Feature>, i: nat)
    requires i <= |input.records|
    ensures var o := DispatchFrom(input, i, true, parseId, failing);
            && o.indexed == []
            && (o.err == None <==>
                  !input.malformed &&
                  forall j :: i <= j < |input.records| && 0 < j ==> |input.records[j]| == |input.records[0]|)
            && (o.err.Some? ==> o.err == Some(ReadFailure))
    decreases |input.records| - i
  {
    if i < |input.records| {
      if i > 0 && |input.records[i]| != |input.records[0]| {
      } else {
        CancelledIndexesNothing(input, parseId, failing, i + 1);
      }
    }
  }

  /** An empty body indexes nothing and succeeds. */
  lemma EmptyBody(cancelled: bool, parseId: Bytes -> Option<int>, failing: set<Feature>)
    ensures DispatchFrom(CsvInput([], false), 0, cancelled, parseId, failing) == Outcome([], None)
  {
  }

  method DispatchRow(idx: Indexer, cancelled: bool, parseId: Bytes -> Option<int>, row: seq<Bytes>)
    returns (r: Result<(), string>)
    modifies idx
    ensures match RowFeature(cancelled, parseId, row)
            case Err(_) => r.Err? && idx.indexed == old(idx.indexed)
            case Ok(None) => r.Ok? && idx.indexed == old(idx.indexed)
            case Ok(Some(f)) => idx.indexed == old(idx.indexed) + [f] && (r.Ok? <==> f !in idx.failing)
  {
    if cancelled {
      return Ok(());
    }
    if |row| != 3 {
      return Err("Invalid column count for row");
    }
    var repo, path := row[1], row[2];
    var id := parseId(path);
    if id.None? {
      return Err("Failed to parse path");
    }
    var f := Feature("Feature", map["wof:id" := IntProperty(id.value), "wof:repo" := StringProperty(repo)]);
    var ok := idx.IndexReader(f);
    if !ok {
      return Err("Failed to index feature");
    }
    return Ok(());
  }
}
