/**
 * The parts of a GitHub push event the transformations and the receiver read, and the
 * exclude flags the two transformations share.
 */
module GitHubEvent {
  import opened Common

  /** A commit of the push: the paths it added, modified and removed. */
  datatype Commit = Commit(id: Bytes, added: seq<Bytes>, modified: seq<Bytes>, removed: seq<Bytes>)

  /** The head commit: its id, message and author name, each `None` where the event's
      pointer is nil (for the author name: a nil author or a nil name). */
  datatype HeadCommit = HeadCommit(id: Option<Bytes>, message: Option<Bytes>, author: Option<Bytes>)

  /** `github.PushEvent`, as far as it is read. A push that deletes a branch has no head
      commit. */
  datatype PushEvent = PushEvent(ref: Bytes, headCommit: Option<HeadCommit>, repoName: Option<Bytes>,
                                 commits: seq<Commit>)

  /** The head commit's id, message and author name, `None` when the head commit or the
      field is nil. */
  function HeadId(ev: PushEvent): Option<Bytes>
  {
    if ev.headCommit.Some? then ev.headCommit.value.id else None
  }

  function HeadMessage(ev: PushEvent): Option<Bytes>
  {
    if ev.headCommit.Some? then ev.headCommit.value.message else None
  }

  function HeadAuthor(ev: PushEvent): Option<Bytes>
  {
    if ev.headCommit.Some? then ev.headCommit.value.author else None
  }

  /** How a transformation ends: it returns, or it dereferences a nil pointer of the
      event and panics. */
  datatype Outcome<T> = Returned(result: Result<T, WebhookError>) | Panic

  /** The error of a body that does not decode as a push event: the decoder's text. */
  function DecodeError(e: string): WebhookError
  {
    WebhookError(Status(999), e)
  }

  /** Which kinds of change a transformation leaves out. */
  datatype Excludes = Excludes(additions: bool, modifications: bool, deletions: bool)

  /** `exclude_additions`, `exclude_modifications` and `exclude_deletions`, parsed in that
      order; the first malformed one is the error. */
  function ExcludeFlags(query: seq<(string, string)>): (r: Result<Excludes, string>)
    ensures r.Ok? <==>
              FlagParam(query, "exclude_additions").Ok? &&
              FlagParam(query, "exclude_modifications").Ok? &&
              FlagParam(query, "exclude_deletions").Ok?
    ensures r.Ok? ==>
              r.value == Excludes(FlagParam(query, "exclude_additions").value,
                                  FlagParam(query, "exclude_modifications").value,
                                  FlagParam(query, "exclude_deletions").value)
    ensures FlagParam(query, "exclude_additions").Err? ==> r == Err(FlagParam(query, "exclude_additions").error)
    ensures FlagParam(query, "exclude_additions").Ok? && FlagParam(query, "exclude_modifications").Err? ==>
              r == Err(FlagParam(query, "exclude_modifications").error)
    ensures FlagParam(query, "exclude_additions").Ok? && FlagParam(query, "exclude_modifications").Ok? &&
            FlagParam(query, "exclude_deletions").Err? ==>
              r == Err(FlagParam(query, "exclude_deletions").error)
  {
    match FlagParam(query, "exclude_additions")
    case Err(e) => Err(e)
    case Ok(a) =>
      match FlagParam(query, "exclude_modifications")
      case Err(e) => Err(e)
      case Ok(m) =>
        match FlagParam(query, "exclude_deletions")
        case Err(e) => Err(e)
        case Ok(d) => Ok(Excludes(a, m, d))
  }
}
