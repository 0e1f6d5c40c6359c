# go-whosonfirst-webhookd, modelled in Dafny

This project models the core of `go-whosonfirst-webhookd`, a webhook server for Who's On
First data repositories. It also covers the webhook plug-ins the server vendors:

- **Receiver.** The GitHub receiver checks a push request and passes its body on.
- **Transformations.** Two GitHub transformations turn a push event into the repository
  name or into CSV rows of changed paths.
- **Dispatchers.** They send the result on to:
  - a Lambda function;
  - a blob bucket;
  - a pub/sub topic;
  - the Who's On First finding-aid indexer.
- **Tools.** Two command-line tools act on the dispatched messages:
  - `dispatch-buffered` drains a bucket of buffered messages into Lambda functions;
  - `launch-ecs-task` launches an ECS task per repository name.

## How the model is built

**Pure code.** Request checks, constructors, flag parsing and file-name derivation are
written as functions. Each function's contract states what the source promises.

**Loops and in-place state.** These are written as methods over classes that hold the
changed state:

| Loop or state | Modelled as |
|---|---|
| `processBody`'s scanner loop | `AwsDispatcher.ProcessBody` |
| `dispatchLines` | `PubSubDispatch.SendEach` |
| the finding-aid read loop | `FindingAid.Dispatch` |
| the commit loops of both transformations | the two `Transform` methods |
| `expand` and the `cli` loop | `LaunchEcsTask.Expand`, `LaunchEcsTask.Cli` |
| the recursive bucket walk of `dispatch-buffered` | `DispatchBuffered.ListPrefix` |

The classes are:

- `Mailbox.Bucket`, whose objects `Delete` removes;
- `BlobDispatch.Bucket`;
- `PubSubDispatch.Topic`;
- `Lambda.LambdaService`;
- `LaunchEcsTask.EcsService`;
- `FindingAid.Indexer`.

Each method is proved to end in the state that a specification function of the inputs
and the old state describes. The properties of the source are then proved about those
functions as lemmas.

**Parameters standing for outside code.** Cloud services, the clock, SHA-256, HMAC, the
JSON decoder, the halt regular expressions and `uri.ParseURI` are all parameters:

- a service records every request it receives and refuses a given set of them;
- a decoder or parser is a function that may fail;
- a compiled user pattern is a byte predicate.

**Fixed regular expressions.** The three fixed patterns are written as hand-coded
matchers:

- the preamble pattern `^#\s?([^\s]+)\s(.*)$`: the matcher is proved to accept exactly
  the lines of the pattern's shape, with the key and value it captures
  (`AwsDispatcher.PreambleComplete`, `AwsDispatcher.PreambleSound`);
- the launcher's base64 shape: the group-by-group matcher is proved equal to a
  character-by-character description of the pattern's language (`Base64.ShapeLanguage`);
- the target pattern `^[a-zA-Z0-9\-_]+$`: the predicate is the pattern read directly
  (non-empty, every byte in the class); no separate proof is given.

**Go behaviour modelled explicitly:**

- `bufio.Scanner` line splitting, including `dropCR` and the 64 KiB token limit;
- `strings.Split` on one character;
- standard base64 (RFC 4648 section 4);
- `strconv.ParseBool`;
- `url.Values.Get`/`Del`;
- `fmt`'s `%d`.

## Model

Source paths are relative to the repository root.

| member | source | states |
|---|---|---|
| Common.Get | vendor/github.com/whosonfirst/go-webhookd-github/receiver.go:58-59 | `url.Values.Get`: "" when the name is absent; a non-empty result is a value given for that name |
| Common.GetFirst | vendor/github.com/whosonfirst/go-webhookd-github/receiver.go:58-59 | when the name is present, the result is the value of its first occurrence, whatever later occurrences hold |
| Common.Del | vendor/github.com/whosonfirst/go-webhookd-gocloud/blob.go:55-57 | every pair with the name is dropped, and every other pair is kept |
| Common.ParseBool | vendor/github.com/whosonfirst/go-webhookd-github/transformation.repo.go:87-94 | exactly the six true spellings and the six false spellings of `strconv.ParseBool` parse |
| Common.FlagParam | vendor/github.com/whosonfirst/go-webhookd-github/transformation.repo.go:80-140 | an absent or empty flag is false; otherwise the flag must parse as a bool, and it fails construction iff it does not |
| Common.HaltPattern | vendor/github.com/whosonfirst/go-webhookd-github/transformation.repo.go:150-170 | an empty pattern means no halt; a non-empty one fails construction iff it does not compile, and otherwise is the compiled pattern |
| Common.FirstIn | vendor/github.com/whosonfirst/go-webhookd-gocloud/pubsub.go:109-116 | the index of the first refused request: everything before it is accepted, and it is refused (or is the end) |
| Common.Attempted | cmd/launch-ecs-task/main.go:106-115 | what a stop-at-first-failure loop sends: a prefix of the requests; only its last can be refused; it is everything iff no earlier request is refused |
| Lambda.InvocationType | vendor/github.com/whosonfirst/go-webhookd-aws/v2/dispatcher.go:79-88 | "" becomes RequestResponse; RequestResponse, Event and DryRun are kept; anything else is rejected, in both directions |
| Lambda.UnmarshalString | cmd/launch-ecs-task/main.go:141 | a payload the runtime decodes is exactly the JSON string of the decoded value |
| Lambda.PayloadIsMarshal | cmd/dispatch-buffered/main.go:59-67 | the invoke payload is `json.Marshal` of the base64 text, which needs no escaping |
| Lambda.PayloadRoundTrip | cmd/dispatch-buffered/main.go:59-71 | the payload decodes to the base64 text, and that text has the base64 shape and decodes back to the body |
| Lambda.PayloadInjective | vendor/github.com/whosonfirst/go-webhookd-aws/v2/dispatcher.go:145-152 | different bodies give different payloads |
| Lambda.LambdaService.Invoke | vendor/github.com/whosonfirst/go-webhookd-aws/v2/dispatcher.go:154-163 | the request is recorded, and it fails iff the service refuses it |
| Base64.Char | cmd/launch-ecs-task/main.go:135 | every 6-bit value maps to a character of the alphabet, never to the pad |
| Base64.Value | cmd/launch-ecs-task/main.go:135 | the value of an alphabet character is the one that maps back to it |
| Base64.ShapeLanguage | cmd/launch-ecs-task/main.go:135 | the matcher accepts exactly the strings of the pattern: a multiple of four characters, all of the alphabet except that the last one may be "=" and the last two "==" |
| Base64.RoundTrip | cmd/launch-ecs-task/main.go:135-157 | every standard encoding matches the shape pattern and decodes back to its input |
| Base64.EncodeLength | cmd/dispatch-buffered/main.go:59 | n bytes encode to 4·⌈n/3⌉ characters |
| Scanner.ScanLines | vendor/github.com/whosonfirst/go-webhookd-gocloud/pubsub.go:106-122 | no token holds a newline |
| Scanner.ScanLine | vendor/github.com/whosonfirst/go-webhookd-gocloud/pubsub.go:109 | a line ending in "\n" is one token without its "\r", and scanning resumes after it |
| Scanner.ScanLastLine | vendor/github.com/whosonfirst/go-webhookd-gocloud/pubsub.go:109 | a last line without "\n" is the final token |
| Scanner.ScanStopsAtLongLine | vendor/github.com/whosonfirst/go-webhookd-gocloud/pubsub.go:118-122 | a line of 64 KiB or more stops the scan with an error, keeping the tokens before it |
| Scanner.ScanJoinLines | vendor/github.com/whosonfirst/go-webhookd-gocloud/pubsub.go:109-116 | lines written one per "\n" scan back to exactly those lines |
| Scanner.ScanJoinLast | vendor/github.com/whosonfirst/go-webhookd-aws/v2/dispatcher.go:183-196 | the same, with a final unterminated line |
| Scanner.DropCR | vendor/github.com/whosonfirst/go-webhookd-aws/v2/dispatcher.go:183-185 | at most one trailing "\r" is removed |
| GitHubEvent.ExcludeFlags | vendor/github.com/whosonfirst/go-webhookd-github/transformation.commits.go:64-99 | the three exclude flags, parsed in order; fails iff one of them is malformed, and then with the first error |
| Receiver.NewGitHubReceiver | vendor/github.com/whosonfirst/go-webhookd-github/receiver.go:48-67 | the secret and the ref are the first values of `secret` and `ref` in the query (`Common.GetFirst`); each is "" when absent |
| Receiver.Receive | vendor/github.com/whosonfirst/go-webhookd-github/receiver.go:73-174 | cancelled: (nil, nil); otherwise succeeds iff a signed, non-ping POST with both headers, on the configured branch, and then returns exactly the body; guards in order: 405, 400, 403 missing signature, UnhandledEvent for ping, 500 with the read error, 403 HMAC |
| Receiver.BranchChecks | vendor/github.com/whosonfirst/go-webhookd-github/receiver.go:143-160 | with a ref configured, a signed body that does not decode gives 999 with the decoder's text; a push for another branch gives 666 |
| Receiver.NoBranchNoDecode | vendor/github.com/whosonfirst/go-webhookd-github/receiver.go:143 | without a ref the body is never decoded, so the result does not depend on the decoder |
| Receiver.PingIgnoresBody | vendor/github.com/whosonfirst/go-webhookd-github/receiver.go:113-116 | a ping is answered before the body is read or verified; neither the body, the signer nor the decoder changes the answer |
| GitHubRepoTransformation.NewRepoTransformation | vendor/github.com/whosonfirst/go-webhookd-github/transformation.repo.go:61-173 | succeeds iff all five flags and both halt patterns are valid; the first error is that of the exclude flags; the fields are the parsed values |
| GitHubRepoTransformation.Transformed | vendor/github.com/whosonfirst/go-webhookd-github/transformation.repo.go:177-252 | (nil, nil) when cancelled; 999 with the decoder's text for an undecodable body; a message matching `halt_on_message` is the HaltEvent error, checked first; then an author name matching `halt_on_author` is the HaltEvent error; a push that halts on neither and whose read fields are there gives exactly `RepoBody`; any other error it returns is the HaltEvent error |
| GitHubRepoTransformation.Transform | vendor/github.com/whosonfirst/go-webhookd-github/transformation.repo.go:177-252 | the method, its halt checks, its `has_updates` loop and its buffer writes end in the outcome `Transformed` specifies, including a panic at each nil field it reads |
| GitHubRepoTransformation.PanicOnlyOnNil | vendor/github.com/whosonfirst/go-webhookd-github/transformation.repo.go:195-244 | a panic needs a nil field that is read: the message or author name when its halt pattern is set or it is prepended, or the repository name; a push with all three never panics |
| GitHubRepoTransformation.NilReadsPanic | vendor/github.com/whosonfirst/go-webhookd-github/transformation.repo.go:195-208 | a nil message under `halt_on_message` panics; a nil author name under `halt_on_author` panics unless the message halted first; a nil repository name panics unless a halt matched |
| GitHubRepoTransformation.DeletedBranch | vendor/github.com/whosonfirst/go-webhookd-github/transformation.repo.go:195-208 | a push without a head commit and without updates panics iff a halt pattern is set or the repository name is nil, and otherwise gives an empty output |
| GitHubRepoTransformation.ExcludeEverything | vendor/github.com/whosonfirst/go-webhookd-github/transformation.repo.go:210-236 | with every category excluded, the output is empty for every push that has a repository name |
| GitHubRepoTransformation.RepoBodyLines | vendor/github.com/whosonfirst/go-webhookd-github/transformation.repo.go:238-248 | with updates, the output is the optional `#message` and `#author` lines, each with its "\n", then the repository name, with no trailing newline |
| GitHubRepoTransformation.PreambleToken | vendor/github.com/whosonfirst/go-webhookd-github/transformation.repo.go:238-244 | a preamble line written for a one-line value is one scanner token that the Lambda dispatcher reads back as that key and value |
| GitHubRepoTransformation.RepoBodyTokens | vendor/github.com/whosonfirst/go-webhookd-github/transformation.repo.go:236-249 | the output scans as the preamble lines, then the name |
| GitHubRepoTransformation.PreambleLinesQuiet | vendor/github.com/whosonfirst/go-webhookd-aws/v2/dispatcher.go:198-212 | the written preamble lines are preamble to the dispatcher, and do not halt it when the values do not match |
| GitHubRepoTransformation.RepoBodyThroughLambda | vendor/github.com/whosonfirst/go-webhookd-aws/v2/dispatcher.go:183-216 | when the prepended message and author name and the repository name are single lines that fit the scanner's buffer (`OneLine`: no "\n", no "\r"), and halts are configured but do not match, the dispatcher turns the repo transformation's output into exactly the repository name (nothing without updates); multi-line messages are the finding below |
| GitHubRepoTransformation.MultiLineMessageLeaks | vendor/github.com/whosonfirst/go-webhookd-github/transformation.repo.go:238-241 | as written, a prepended message of two lines makes the dispatcher pass on its second line glued to the repository name |
| GitHubRepoTransformation.LeakTokens | vendor/github.com/whosonfirst/go-webhookd-github/transformation.repo.go:238-247 | a `#message` line whose value holds a line break scans as the preamble line of the first line, then the second line, then the name |
| GitHubRepoTransformation.LeakKept | vendor/github.com/whosonfirst/go-webhookd-aws/v2/dispatcher.go:198-216 | after a quiet preamble line, a plain line and the name are both kept |
| GitHubRepoTransformation.Flatten | vendor/github.com/whosonfirst/go-webhookd-github/transformation.repo.go:238-246 | the value with every line break as a space: same length, no "\n" or "\r", every other byte kept |
| GitHubRepoTransformation.CorrectedRepoBodyThroughLambda | vendor/github.com/whosonfirst/go-webhookd-aws/v2/dispatcher.go:183-216 | with the prepended fields flattened, the dispatcher passes on exactly the repository name for any message and author name that fit the scanner's buffer |
| GitHubCommitsTransformation.NewCommitsTransformation | vendor/github.com/whosonfirst/go-webhookd-github/transformation.commits.go:50-108 | succeeds iff the exclude flags parse, and carries them |
| GitHubCommitsTransformation.WritePaths | vendor/github.com/whosonfirst/go-webhookd-github/transformation.commits.go:139-145 | the loop over one list writes one row per path, in list order |
| GitHubCommitsTransformation.WriteCommit | vendor/github.com/whosonfirst/go-webhookd-github/transformation.commits.go:137-158 | a commit writes its added, then modified, then removed paths, skipping excluded categories |
| GitHubCommitsTransformation.Transformed | vendor/github.com/whosonfirst/go-webhookd-github/transformation.commits.go:112-164 | a cancelled context returns no output and no error; an undecodable body is error 999 with the decoder's text; a decoded push panics iff its repository name or head commit id is nil, both read unconditionally; otherwise it succeeds with the rows of every commit built from that head id and name |
| GitHubCommitsTransformation.DeletedBranchPanics | vendor/github.com/whosonfirst/go-webhookd-github/transformation.commits.go:133-135 | a push without a head commit (a branch deletion) always panics |
| GitHubCommitsTransformation.Transform | vendor/github.com/whosonfirst/go-webhookd-github/transformation.commits.go:112-164 | the nested loops end in `Transformed`: (nil, nil) when cancelled, 999 with the decoder's text for an undecodable body, a panic on a nil repository name or head commit id, otherwise the rows commit by commit |
| GitHubCommitsTransformation.RowsArePathRows | vendor/github.com/whosonfirst/go-webhookd-github/transformation.commits.go:133-159 | the rows are one row per included path, in commit order and then added/modified/removed order |
| GitHubCommitsTransformation.PathRowsShape | vendor/github.com/whosonfirst/go-webhookd-github/transformation.commits.go:141-155 | every row is exactly (head commit id, repository name, path) |
| GitHubCommitsTransformation.RowsShape | vendor/github.com/whosonfirst/go-webhookd-github/transformation.commits.go:133-159 | the row count is the sum of the lengths of the non-excluded lists; the i-th row carries the head commit id (not the commit's own), the name and the i-th included path |
| GitHubCommitsTransformation.ExcludeEverything | vendor/github.com/whosonfirst/go-webhookd-github/transformation.commits.go:139-158 | excluding all three categories yields no rows |
| AwsDispatcher.NonSpaceRun | vendor/github.com/whosonfirst/go-webhookd-aws/v2/dispatcher.go:32 | `[^\s]+` taken greedily: the run has no `\s` and stops at one |
| AwsDispatcher.PreambleComplete | vendor/github.com/whosonfirst/go-webhookd-aws/v2/dispatcher.go:32 | every line of the shape (`#`, an optional whitespace, a non-empty key without whitespace, one whitespace, then a value without a newline) matches with that key and value |
| AwsDispatcher.PreambleSound | vendor/github.com/whosonfirst/go-webhookd-aws/v2/dispatcher.go:32 | every line that matches has that shape |
| AwsDispatcher.NewLambdaDispatcher | vendor/github.com/whosonfirst/go-webhookd-aws/v2/dispatcher.go:59-124 | the function is the host; succeeds iff the AWS session for `dsn` is created and the invocation type and both halt patterns are valid; a session failure is reported first, with the session's error, then an invalid invocation type |
| AwsDispatcher.ProcessLines | vendor/github.com/whosonfirst/go-webhookd-aws/v2/dispatcher.go:198-212 | the only error of the line loop is the HaltEvent error |
| AwsDispatcher.Kept | vendor/github.com/whosonfirst/go-webhookd-aws/v2/dispatcher.go:188-196 | the kept lines are lines of the input that are not preamble lines |
| AwsDispatcher.ProcessLinesHalts | vendor/github.com/whosonfirst/go-webhookd-aws/v2/dispatcher.go:198-212 | processing fails iff some line is a `message` or `author` preamble whose value matches the configured pattern |
| AwsDispatcher.ProcessLinesOutput | vendor/github.com/whosonfirst/go-webhookd-aws/v2/dispatcher.go:188-222 | on success, the output is the concatenation of the non-preamble lines, in order and without line ends; preamble lines, unknown keys included, never appear |
| AwsDispatcher.SkipPreambles | vendor/github.com/whosonfirst/go-webhookd-aws/v2/dispatcher.go:214-216 | preamble lines that do not halt leave no trace in the output |
| AwsDispatcher.ProcessedBodyOutcome | vendor/github.com/whosonfirst/go-webhookd-aws/v2/dispatcher.go:168-223 | with no halt pattern the body is returned unchanged; otherwise the results of the two lemmas above, applied to the scanned lines |
| AwsDispatcher.ProcessBody | vendor/github.com/whosonfirst/go-webhookd-aws/v2/dispatcher.go:168-223 | the scanner loop with its buffer ends in exactly `ProcessedBody` |
| AwsDispatcher.Dispatch | vendor/github.com/whosonfirst/go-webhookd-aws/v2/dispatcher.go:127-166 | cancelled: no invoke and no error; a processing error is returned before any invoke; otherwise exactly one invoke, with the processed body's payload, and a refused invoke is 999 |
| BlobDispatch.NewBlobDispatcher | vendor/github.com/whosonfirst/go-webhookd-gocloud/blob.go:42-73 | `dispatch_prefix` is read, then removed (every other parameter kept) before the bucket is opened; any prefix is accepted |
| BlobDispatch.Decimal | vendor/github.com/whosonfirst/go-webhookd-gocloud/blob.go:97 | `%d` of an integer is a decimal numeral |
| BlobDispatch.DecimalRoundTrip | vendor/github.com/whosonfirst/go-webhookd-gocloud/blob.go:97 | the numeral reads back as the number |
| BlobDispatch.FileName | vendor/github.com/whosonfirst/go-webhookd-gocloud/blob.go:86-107 | "" gives the hash; `_ts_` gives a name that splits into a numeral for `now`, "-" and the hash; any other prefix is the 999 "not implemented" error |
| BlobDispatch.TimestampNamesDiffer | vendor/github.com/whosonfirst/go-webhookd-gocloud/blob.go:96-101 | with `_ts_`, dispatches in different seconds get different names |
| BlobDispatch.Bucket.Write | vendor/github.com/whosonfirst/go-webhookd-gocloud/blob.go:109-127 | a write that succeeds maps the name to the body; one that fails changes nothing |
| BlobDispatch.Dispatch | vendor/github.com/whosonfirst/go-webhookd-gocloud/blob.go:77-128 | the bucket and error are those `Stored` specifies |
| BlobDispatch.StoredObjects | vendor/github.com/whosonfirst/go-webhookd-gocloud/blob.go:79-127 | cancelled or error: nothing changes and errors are 999; success: the name maps to exactly the body and no other key changes; an unknown prefix is the prefix error |
| BlobDispatch.RepeatOverwrites | vendor/github.com/whosonfirst/go-webhookd-gocloud/blob.go:86-109 | with no prefix, dispatching the same body again (at any time) leaves the bucket as the first dispatch left it |
| PubSubDispatch.ParseMode | vendor/github.com/whosonfirst/go-webhookd-gocloud/pubsub.go:51-61 | "" and "lines" select lines, "all" selects all, anything else is the construction error |
| PubSubDispatch.NewPubSubDispatcher | vendor/github.com/whosonfirst/go-webhookd-gocloud/pubsub.go:41-81 | the mode is checked, then `mode` is removed from the URI before the topic opens |
| PubSubDispatch.Topic.Send | vendor/github.com/whosonfirst/go-webhookd-gocloud/pubsub.go:127-139 | the message is recorded, and it fails iff the topic refuses it |
| PubSubDispatch.SendEach | vendor/github.com/whosonfirst/go-webhookd-gocloud/pubsub.go:109-116 | the messages are sent in order up to and including the first refusal, and the loop succeeds iff none is refused |
| PubSubDispatch.DispatchLines | vendor/github.com/whosonfirst/go-webhookd-gocloud/pubsub.go:104-125 | one send per scanned line until a refusal; the scanner error is reported only after all sends succeeded |
| PubSubDispatch.Dispatch | vendor/github.com/whosonfirst/go-webhookd-gocloud/pubsub.go:85-102 | the sent messages are the attempted prefix of `Messages`; the error is `Failure`: 999 for a refused send or a scanner error |
| PubSubDispatch.AllSendsBody | vendor/github.com/whosonfirst/go-webhookd-gocloud/pubsub.go:89-91 | all mode sends exactly one message, the whole body |
| PubSubDispatch.EmptyBodySendsNothing | vendor/github.com/whosonfirst/go-webhookd-gocloud/pubsub.go:104-116 | lines mode sends nothing for an empty body, and succeeds |
| PubSubDispatch.LinesSentInOrder | vendor/github.com/whosonfirst/go-webhookd-gocloud/pubsub.go:104-125 | lines written one per "\n" are sent one message each, in order; the dispatch succeeds iff none is refused |
| FindingAid.IndexerUri | dispatcher/findingaid.go:55-64 | scheme `repo`, the given cache, iterator `null://` |
| FindingAid.NewFindingAidDispatcher | dispatcher/findingaid.go:39-80 | a missing `?cache=` fails; otherwise it succeeds iff the indexer is created, with the repo URI and the ACL |
| FindingAid.RowFeature | dispatcher/findingaid.go:125-184 | cancelled: skip; otherwise valid iff 3 columns and the path parses; the feature's properties are exactly `wof:id` (the parsed id) and `wof:repo` (column 2) |
| FindingAid.RowIgnoresHash | dispatcher/findingaid.go:148-156 | the commit hash column plays no part |
| FindingAid.Indexer.IndexReader | dispatcher/findingaid.go:176-183 | the feature is recorded, and it fails iff the indexer refuses it |
| FindingAid.DispatchRow | dispatcher/findingaid.go:125-184 | an invalid row indexes nothing and fails; a cancelled one indexes nothing and succeeds; a valid one indexes its feature and fails iff that is refused |
| FindingAid.Dispatch | dispatcher/findingaid.go:84-123 | the read loop indexes and fails as `DispatchFrom` specifies |
| FindingAid.FeaturesBetweenGood | dispatcher/findingaid.go:94-120 | good rows give one feature each, in row order |
| FindingAid.GoodRowsIndexed | dispatcher/findingaid.go:94-120 | a run of good rows is indexed in order, and the dispatch then goes on as it would from the next row |
| FindingAid.AllRowsIndexed | dispatcher/findingaid.go:94-122 | a body of good rows indexes every row, in order, and succeeds |
| FindingAid.FirstBadRowStops | dispatcher/findingaid.go:115-119 | the first rejected row ends the dispatch with 999, after the rows before it were indexed and before any later row is read |
| FindingAid.FieldCountIsReadError | dispatcher/findingaid.go:103-111 | a record whose field count differs from the first record's is a read error (999) |
| FindingAid.CancelledIndexesNothing | dispatcher/findingaid.go:96-101 | under cancellation the loop still reads every row but indexes nothing; it fails only on a read error |
| FindingAid.EmptyBody | dispatcher/findingaid.go:103-107 | an empty body indexes nothing and succeeds |
| Mailbox.ChildOf | cmd/dispatch-buffered/main.go:200-203 | a key shows in a "/"-delimited listing as the common prefix up to its next "/", or as itself when there is no "/" after the prefix |
| Mailbox.ChildOfBelowDir | cmd/dispatch-buffered/main.go:218-227 | every key below a common prefix shows as that common prefix |
| Mailbox.Listing | cmd/dispatch-buffered/main.go:200-203 | a listing has no duplicate entries |
| Mailbox.ListingMembers | cmd/dispatch-buffered/main.go:200-216 | the listing shows exactly the children of the keys under the prefix |
| Mailbox.ReadObject | cmd/dispatch-buffered/main.go:229-241 | the read succeeds iff the object exists and neither open nor read fails; it yields the object's bytes |
| Mailbox.ListIterator.Next | cmd/dispatch-buffered/main.go:205-214 | the next entry, EOF after the last, or the planned iterator error |
| Mailbox.Bucket.List | cmd/dispatch-buffered/main.go:200-203 | a fresh iterator over the listing of the prefix |
| Mailbox.Bucket.Read | cmd/dispatch-buffered/main.go:229-241 | the result is `ReadObject` on the bucket |
| Mailbox.Bucket.Delete | cmd/dispatch-buffered/main.go:263-267 | fails for a missing key or a planned failure; otherwise exactly that key is removed |
| Mailbox.RemoveValid | cmd/dispatch-buffered/main.go:263 | deleting keeps the key list and the object map in agreement |
| DispatchBuffered.NewDispatcher | cmd/dispatch-buffered/main.go:82-122 | the function is the host; succeeds iff the AWS session for `dsn` is created and the invocation type is valid; a session failure is reported first, with the session's error |
| DispatchBuffered.Dispatch | cmd/dispatch-buffered/main.go:47-80 | cancelled: no request and no error; otherwise exactly one request, the body's base64 JSON payload, failing iff refused |
| DispatchBuffered.DispatchAll | cmd/dispatch-buffered/main.go:252-259 | the dispatchers are called in order up to and including the first refusal, whose index is returned |
| DispatchBuffered.ProcessObject | cmd/dispatch-buffered/main.go:229-267 | reading, dry-run logging, dispatching and deleting one object end as `Leaf` specifies |
| DispatchBuffered.ListPrefix | cmd/dispatch-buffered/main.go:198-271 | the recursive walk of a prefix ends in the bucket, requests, log and error that `DrainPrefix` specifies |
| DispatchBuffered.Process | cmd/dispatch-buffered/main.go:194-280 | the whole walk ends as `Drain` specifies; an error becomes a fatal exit and otherwise `process` completes |
| DrainProperties.RemoveAllDeletes | cmd/dispatch-buffered/main.go:263-267 | deleting keys one after another deletes exactly those keys |
| DrainProperties.LeafAccounted | cmd/dispatch-buffered/main.go:229-267 | one object is completed, logged or kept as the accounting requires |
| DrainProperties.PrefixAccounted | cmd/dispatch-buffered/main.go:198-271 | a walk's completed keys are distinct keys under the prefix and exactly they are deleted; a live walk sent each completed body to every dispatcher in order, plus the failing object's requests; a dry run sends and deletes nothing; an error's object stays |
| DrainProperties.DrainAccounted | cmd/dispatch-buffered/main.go:194-280 | the accounting holds for the whole drain |
| DrainProperties.LeafDone | cmd/dispatch-buffered/main.go:243-267 | an object that does not fail is completed in a live run and logged in a dry run |
| DrainProperties.DrainKeepsTheRest | cmd/dispatch-buffered/main.go:252-267 | whatever the outcome, the bucket keeps exactly the objects not completed, each with its body and in order |
| DrainProperties.DrainEmpties | cmd/dispatch-buffered/main.go:252-267 | a live drain without error empties the bucket; each object is sent once to every dispatcher, in dispatcher order |
| DrainProperties.DrainDispatchFailure | cmd/dispatch-buffered/main.go:252-262 | a failing dispatcher is the first one refused; its object stays; earlier objects were sent everywhere and deleted |
| DrainProperties.DrainRemoveFailure | cmd/dispatch-buffered/main.go:263-267 | a failed delete leaves its object, which was sent to every dispatcher |
| DrainProperties.DryRunTouchesNothing | cmd/dispatch-buffered/main.go:243-250 | a dry run sends and deletes nothing, and logs one line per dispatcher for each logged object |
| DrainProperties.CancelledSendsNothing | cmd/dispatch-buffered/main.go:49-54 | under a cancelled context no request is sent |
| DrainProperties.DryPrefixLevel | cmd/dispatch-buffered/main.go:243-250 | in a dry run the walk of a level stops at its first object directly at that level |
| DrainProperties.DryPrefixLogs | cmd/dispatch-buffered/main.go:218-250 | a dry-run level with a key below it logs something |
| DrainProperties.DryRunVisitsEveryFolder | cmd/dispatch-buffered/main.go:218-250 | when every key is in some folder, a dry run walks every top-level folder and logs a key below it, since a stop in a sub-level does not stop its parent |
| LaunchEcsTask.SplitCount | cmd/launch-ecs-task/main.go:64 | `strings.Split` gives one more piece than separators |
| LaunchEcsTask.SplitJoin | cmd/launch-ecs-task/main.go:64 | joining the pieces gives the input back, and no piece holds the separator |
| LaunchEcsTask.Expand | cmd/launch-ecs-task/main.go:58-70 | the nested loop returns `Expanded`: each candidate's pieces, in candidate order |
| LaunchEcsTask.ExpandedLength | cmd/launch-ecs-task/main.go:58-70 | each candidate contributes its comma count plus one elements |
| LaunchEcsTask.Startup | cmd/launch-ecs-task/main.go:52-74 | a missing command is fatal first; the lists are expanded only in lambda mode; any mode but cli and lambda is fatal; the other options are passed through |
| LaunchEcsTask.Setup | cmd/launch-ecs-task/main.go:52-74 | the start-up sequence ends in `Startup` |
| LaunchEcsTask.CommandLineSplits | cmd/launch-ecs-task/main.go:88-89 | the argument list is the formatted command cut at every single space and nowhere else |
| LaunchEcsTask.EcsService.RunTask | cmd/launch-ecs-task/main.go:93-97 | the launch is recorded, and it fails iff ECS refuses it |
| LaunchEcsTask.LaunchTask | cmd/launch-ecs-task/main.go:86-100 | exactly one launch, with the split command line |
| LaunchEcsTask.CliCalls | cmd/launch-ecs-task/main.go:106-115 | one launch per element of the argument list it is given |
| LaunchEcsTask.CliCallAt | cmd/launch-ecs-task/main.go:106-115 | the i-th launch uses the i-th argument |
| LaunchEcsTask.Cli | cmd/launch-ecs-task/main.go:106-115 | over the positional arguments left by parsing the tool's flag set (the intended list; see the finding below): launches in argument order up to and including the first failure, which is fatal, with that index; succeeds iff none fails |
| LaunchEcsTask.CliAsWrittenLaunchesNothing | cmd/launch-ecs-task/main.go:44-106 | as written, the loop ranges over `flag.Args()` of Go's default flag set, which is never parsed and so empty: no launch, whatever arguments were given |
| LaunchEcsTask.StringHandler | cmd/launch-ecs-task/main.go:141-164 | the target is base64-decoded iff it has the shape; an invalid target is "Invalid payload" with no launch; a valid one is launched once |
| LaunchEcsTask.DispatchedTarget | cmd/launch-ecs-task/main.go:147-157 | a body dispatched through a Lambda dispatcher reaches the handler as its own target |
| LaunchEcsTask.EmptyPayloadInvalid | cmd/launch-ecs-task/main.go:159-163 | an empty payload is invalid |

**Receiver.** `Receiver.Receive` returns `(nil, nil)` when cancelled. Otherwise:

- It succeeds iff all of these hold, and then the result is exactly the request body:
  - the request is a well-formed non-ping POST;
  - the body is signed with the secret;
  - the push is for the configured branch, when one is configured.
- The guards run in this order, each with its own error:
  1. 405 for a method other than POST;
  2. 400 for a missing `X-GitHub-Event`;
  3. 403 for a missing signature;
  4. UnhandledEvent for ping;
  5. 500 with the read error;
  6. 403 "HMAC verification failed".

**Drain accounting.** `DrainProperties.PrefixAccounted` states, for the walk of a prefix:

- The walk's completed keys are distinct keys under the prefix, and exactly they are
  deleted.
- A live walk sends each completed body to every dispatcher, plus the requests of the
  object it failed on.
- A dry run sends and deletes nothing and logs one line per dispatcher.
- An error's object is still in the bucket.

## Left out

**Abstracted as parameters** (each is a parameter and is not itself modelled):

- SHA-256 (`HashBody`).
- HMAC signature generation and its constant-time comparison.
- Decoding a GitHub push event from JSON.
- Compiling and matching the user's halt regular expressions.
- `uri.ParseURI` of Who's On First paths.
- `fmt.Sprintf` of the launcher's command template.
- `url.Parse` itself: URIs are given parsed.
- Creating an AWS session from the `dsn` parameter: a function giving the session
  library's error, if any.

**Cloud and runtime calls.** These are oracles that record each request and refuse a
chosen set:

- Lambda `Invoke`;
- pub/sub `Send`;
- blob writers;
- the finding-aid indexer;
- ECS `RunTask`.

**Error texts and other details not modelled:**

- The error texts of failed opens, writes, sends, invokes and launches are chosen strings.
- The ECS response is not modelled.
- `NewWriter`/`Write`/`Close` failures of the blob writer are one failure.

**Not part of this model:**

- Process start-up, flag and environment parsing, `lambda.Start`, the `webhookd` server and
  its config flattener.
- `init` registration.
- Logging, except the dry-run log of `dispatch-buffered`.
- Concurrency: cancellation is a boolean checked where the source checks `ctx.Done()`.
- The `go-aws-ecs` wrapper is not part of this model; `launchTask` calls an abstract ECS
  service.
- The AWS SDK operation files are not part of this model.

**Encodings:**

- The CSV encoding is left out. The commits transformation's output is the sequence of
  records handed to the writer. The finding-aid input is the sequence of records the reader
  returns, plus a flag for unparseable input, with the reader's fixed field count.
- JSON escaping is modelled only for strings without characters that need escaping, which
  covers the base64 payloads.
- `url.Values.Encode` reorders query keys when a URI is re-encoded; the model keeps them in
  their original order.

**Member notes:**

- GitHubRepoTransformation.Transform: a nil `Repo` and a nil `Repo.Name` are one case (no
  repository name), as are a nil `Author` and a nil `Author.Name`. A panic is an outcome
  of the transformation; what the server does with it is not modelled.
- GitHubCommitsTransformation.Transform: the same grouping of nil pointers; a panic is an
  outcome of the transformation.
- FindingAid.Dispatch: the 999 error carries a fixed text ("Failed to read row",
  "Failed to dispatch row"), where the source passes on the text of the CSV reader's error
  or of the row's error (findingaid.go:110, 118). The code and where the loop stops are
  modelled. The S3 ACL writer option that the source attaches to the context for every
  index write when `acl` is set (findingaid.go:86-89) is not modelled: the indexer's
  writes are outside this model, so the dispatcher's `acl` is carried but not read.
- FindingAid.RowFeature: the row errors are shortened texts. The source's texts hold the
  expected and actual column counts, and the path with the parser's error
  (findingaid.go:142, 155).
- FindingAid.DispatchRow: the same shortened row texts; an index failure is a fixed text,
  where the source returns the indexer's error.
- Receiver.Receive: compares the configured ref with the push's ref byte for byte, which
  matches Go only for ASCII refs. A push event whose `ref` is nil would make the source
  dereference nil; the model gives every push a ref.
- BlobDispatch.FileName: `HashBody`'s error branch is not modelled, because hashing a byte
  slice in memory cannot fail.
- PubSubDispatch.Dispatch: the source never consults the context here, and neither does the
  model.
- AwsDispatcher.ProcessedBody: when a line reaches the scanner's 64 KiB limit, the source
  ignores the scanner's error and returns the lines before it. The model does exactly that.
- DispatchBuffered.ListPrefix: the listing of a prefix is taken as a snapshot when the
  iterator is created. Deletions during the walk do not change an iterator already open.
  The recursion bound is a ghost parameter: the longest key.
- LaunchEcsTask.HandlerTarget: Go's decoder cannot fail on a string of the checked shape,
  so the handler's decode-error branch is never reached and is not modelled.

## Findings

| source | as written | input that shows it | evidently intended | confidence | as-written member | corrected member |
|---|---|---|---|---|---|---|
| vendor/github.com/whosonfirst/go-webhookd-github/transformation.repo.go:238-241 | `#message %s\n` writes the commit message as it is, so a line break in the message ends the preamble line early | `prepend_message` set; a Lambda dispatcher with `halt_on_author` set; head commit message `Fix`, a line break, `Closes 12`; repository `data`: the Lambda receives `Closes 12data` | the message stays on its preamble line (line breaks written as spaces), so only the repository name is passed on | medium, not executed | GitHubRepoTransformation.MultiLineMessageLeaks | GitHubRepoTransformation.CorrectedRepoBodyThroughLambda |
| cmd/launch-ecs-task/main.go:106 | the `cli` loop ranges over `flag.Args()` of Go's default flag set, while only the tool's own flag set is parsed (main.go:44) | `launch-ecs-task -command x -mode cli repo1`: `flag.Args()` is empty, so nothing is launched | a loop over the tool's flag set's positional arguments, one launch each | low (the flag-set helper's source is not part of this model; it is assumed not to parse the default set), not executed | LaunchEcsTask.CliAsWrittenLaunchesNothing | LaunchEcsTask.Cli |

`GitHubRepoTransformation.Transform` keeps the repo transformation's code as written;
`GitHubRepoTransformation.CorrectedRepoBody` is the intended output. `LaunchEcsTask.Cli` is
given the intended argument list.
