# Captured changes, replayed reviews, provider sessions and streams

A model of four parts of mekugi, with proofs of what they promise.

- **Composition** (`libraries/diffmodel/review_compose.go`, `review.go`).  Every edit of a file is
  captured as a unified diff.  The captures of one file are composed into the net regions between
  the file as first seen and the file as last seen, without either file at hand.  Here the two files
  are ghosts: `Describes(base, cur)` says which pairs of files a composition can be describing, and
  the specification is applying a list of regions to a whole file (`Regions.Patched`).
- **Replay** (`libraries/diffmodel/review_merge.go`).  A captured review is replayed or undone on
  text that has drifted: exactly, or merged three ways into the region its context anchors.  The
  specification says which outcome the text decides for every hunk, and what it does to the text.
- **Sessions** (`backends/codex/responses/session.go`, `session_provider.go`, `request.go`).  A
  connection keeps its history as a tree, and sends a provider only what it lacks.  The provider is
  a ghost map from response identities to the conversations held for them; the fast form refines
  sending the whole conversation every time, whatever steers are acknowledged meanwhile.
- **Streams** (`backends/codex/responses/stream.go`).  A provider's chunks are translated into
  lifecycle events.  The specification is a client that reads the events and accepts nothing but
  the lifecycle.

The line matcher, its grouping and path quoting are functions with a contract (`Matches`, `Groups`,
`Blocks`, `Quotes`), and every theorem is for all functions that meet it; `Matcher.WholeDiffer`,
`Matcher.WholeGroups` and `Diff3.WholeBlocks` are witnesses that some do.  Classes, in-place updates and
loops follow the Go code; each method is proved against a function or predicate on the values it
changes.

| module | contents |
|---|---|
| `Text`, `Regions`, `RegionEdits` | lines and numbers as text; region lists and what they do to files; splicing an edit into one |
| `Matcher`, `Review`, `ReviewText`, `ReviewRender`, `DiffReading`, `Sizes`, `LineCounts` | opcodes; hunks and their edits; printing and parsing diffs, and what they say character for character; what fits the format; counting rows |
| `Recall`, `CompositionFacts`, `Learning`, `Capacity`, `Rediff`, `Composing`, `Composition` | what stays remembered, learning context, applying edits, how much there is to remember, re-diffing, and the class that does all of it |
| `DisplayFacts`, `Chain`, `Hiding` | displaying a composition; whole histories; a history that hides too much |
| `Anchors`, `Diff3`, `MergeReading`, `MergeFacts`, `MergeSteps`, `MergePlan`, `Merge` | locating hunks, the three-way merge and what its output says, and replaying a review |
| `SessionItems`, `SessionFacts`, `Session`, `SessionRun`, `SessionLate` | items and output reconciliation; the tree and the ledger of steers; the two classes; whole conversations; turns the provider is not told all of |
| `StreamEvents`, `StreamChunks`, `Stream` | the client, what chunks say, and the translator |

## Findings

Three properties one would expect do not hold of the code.  Each is stated with the exact condition
under which it does.

- **Comparing anew can hide a change no capture hid** (`review_compose.go:310-350`).  `normalize`
  shows a piece of a changed opcode only if it shares a line with a visible old region.  A matcher
  that keeps another of two equal lines can move a deletion onto a line *between* the old regions,
  and then it is hidden.  `Hiding.HiddenByComparingAnew` proves it of a concrete history: from `s s y`, delete the first
  `s`, then change `y` to `x`.  Both captures are visible, and matching the first `s` on both
  sides, as a matcher that prefers the earliest longest match does, the composition displays
  `s s x` for a file that holds `s x`.  `Rediff.NothingHides` gives the exact condition on the old regions
  and the opcodes, and `Composing.VisibleCapture` what it means for a capture.
- **Path lines can be counted as rows** (`review.go:79-87`, `119-134`).  A diff whose first line
  begins like a hunk header and whose next two lines are the path lines of the file is parsed
  without its first line, but counted with it, so that both path lines count.
  `LineCounts.PathLinesCounted` proves it of a diff without any row, and `LineCounts.CountsRows`
  that this is the only case.  A rendered diff is never one.
- **A late steer can enter a conversation the provider does not hold**
  (`session.go:284-296`, `session_provider.go:111-124`).  Creation moves the steers acknowledged for
  the request's parent into the session's history.  A request without a parent, or whose parent is
  not confirmed because its response failed, is sent in full and without a parent, so a steer
  acknowledged after sending is in the history, and not in what the provider was told or has
  confirmed.  `SessionLate.SteeredAside` proves it of one turn of a new session, and
  `SessionLate.SteeredAstray` of a turn on top of a failed response.  `SessionRun.FaithfulTurn` gives
  the exact condition, `InTime`, on the session and the turn before it is taken: the parent is
  confirmed, or the steers acknowledged at creation are those the request was prepared with.  A later
  request is still heard in full (`Session.SessionExchange.Send`).

## Model

| member | source | states |
|---|---|---|
| Regions.CarriesPatches | libraries/diffmodel/review_compose.go:18-36 | what regions mean: a list whose regions read as recorded in both files, with equal text between them, fits the older file, and replacing old sides by new sides there gives exactly the newer file |
| Composition.ReviewComposition.OriginalPosition | libraries/diffmodel/review_compose.go:148-160 | a newer position gets its original place, less the growth of exactly the regions in front of it, unless a region covers it |
| Composition.ReviewComposition.Boundary | libraries/diffmodel/review_compose.go:176-209 | the stretch an edit rewrites always has an original boundary: the error for lacking one cannot arise |
| Composition.ReviewComposition.ApplyEdit | libraries/diffmodel/review_compose.go:176-276 | for every overlap, adjacency and empty region: on success the composition describes the original and the edited file, the overlapped regions giving way to at most one net region with their visibility, and the rest moving; on failure nothing changes; an edit that fits and is captured fails only if more lines of a file are remembered, before or after it, than a region may hold |
| Composition.ReviewComposition.Normalize | libraries/diffmodel/review_compose.go:281-355 | re-diffing keeps describing the same two files for every valid matcher; a piece is visible exactly if it touches a visible old region, lit exactly if it touches a visible lit one, and keeps old boundaries; regions of equal, fully remembered files vanish if the matcher finds their text in itself; the result is exactly the opcodes cut at the old corners |
| Rediff.NothingHides | libraries/diffmodel/review_compose.go:310-350 | with all old regions visible, re-diffing hides nothing if and only if no changed opcode, cut at the old regions' corners, has a changing piece whose old and new lines all lie between the old regions |
| Rediff.OneRegionShown | libraries/diffmodel/review_compose.go:281-355 | a visible region not connected to another never hides, whatever the matcher |
| Composition.ReviewComposition.ApplyWithHighlight | libraries/diffmodel/review_compose.go:70-145 | a capture is accepted only if its hunks fit a file the composition can be describing, and then the composition describes that file patched; if they fit the given file, it is refused only if the lines to be remembered with it, not the files, exceed the capacity; a refusal changes nothing; the new regions are what learning, editing and re-diffing make of the old; all hidden stays hidden, none lit stays unlit |
| Composition.ReviewComposition.RefusalMeans | libraries/diffmodel/review_compose.go:70-83 | what is refused whatever the files: a directory, then an incomplete history, then hunks that do not parse, then another path than the composition's |
| Recall.EditRecalled | libraries/diffmodel/review_compose.go:161-276 | an edit keeps this invariant: the original of every line a region replaced, and of every newer line remembered between regions, is remembered; so no region and no rewritten stretch is larger than what is remembered |
| RegionEdits.OverlapMeans | libraries/diffmodel/review_compose.go:162-174 | an edit overlaps a region if they share a line, if one is empty strictly inside the other, or if both are empty at the same place |
| Capacity.RowsFit | libraries/diffmodel/review_compose.go:118-145 | learning and applying a capture adds to what is remembered of either file no more lines than the capture has rows, however long the files; so captures of together at most 2^20 rows are never refused for capacity |
| Chain.Compose | libraries/diffmodel/review_compose.go:70-145 | every capture of every genuine history is accepted while the rows captured so far, or else the files, do not exceed 2^20 lines, and the regions left fit the first version, turn it into the last, are placed by the growth before them, and are hidden if all captures are and unlit if none lights; the paths are the first and the last, hidden and lit as the last capture that changed them; the state after each capture is the one composing it makes |
| Composing.VisibleCapture | libraries/diffmodel/review_compose.go:130-135 | composing a visible capture where nothing is hidden leaves nothing hidden if and only if re-diffing moves no change between the edited regions |
| Hiding.HiddenByComparingAnew | libraries/diffmodel/review_compose.go:281-355 | a history of two visible captures, composed with a valid matcher: one region is hidden, and what is shown of the first version is not the last version |
| Composition.ReviewComposition.FilesWithHighlights | libraries/diffmodel/review_compose.go:398-443 | one fragment for every visible region, in order and disjoint in both files, reading as both files do, lit as its region; its context is three lines, fewer only before what is shown, the next region, or lines not remembered as common; every file goes by the composition's two paths; if there is no fragment, the paths are shown alone exactly if they differ, visibly, and lit as that change |
| Composition.ReviewComposition.Files | libraries/diffmodel/review_compose.go:369-392 | the regions are joined as `DisplayFacts.JoinedAll` joins them, which leaves none adjacent and changes neither the files described nor what is shown; the fragments are those of the joined regions, each exact, framed by remembered context and in order |
| DisplayFacts.JoinedRuns | libraries/diffmodel/review_compose.go:369-385 | the joined regions are one for each maximal run of regions adjacent in both files and alike in visibility, and nothing else is joined |
| DisplayFacts.JoinMeans | libraries/diffmodel/review_compose.go:373-384 | two regions join exactly if one begins in both files where the other ends and both are hidden or neither is; joined, they hold the lines of both, in order, and are lit as the first |
| DisplayFacts.DisplayedPatch | libraries/diffmodel/review_compose.go:398-443 | displayed fragments, if every one of them can be read back as text, applied to the original file change exactly the visible regions |
| Chain.Project | libraries/diffmodel/review_compose.go:369-443 | a genuine history composed and displayed, whatever the size of its files: if the display can be read back, and it can if the two ends together have at most 2^20 lines, then applied to the first version it makes exactly the visible changes, and gives the last version if no region is hidden; every file goes by the first path and the last, and if no change is shown, these are shown alone exactly if they differ and the last change of path is visible |
| Chain.RenderedStep | libraries/diffmodel/review.go:139-147 | a capture rendered from two texts parses, fits the first and turns it into the second if and only if the format can hold its positions, hunks and rows, as it can for texts of together at most 2^20 lines |
| Composition.ReviewComposition.Consistent | libraries/diffmodel/review_merge.go:290-301 | true exactly if every remembered line stands in the content, so true of every file the composition can be describing |
| ReviewText.ParseReviewHunks | libraries/diffmodel/review_compose.go:448-517 | the parser's loop gives what the grammar gives, error for error; what it accepts has valid rows, and hunks in order and disjoint on both sides, whose shift, in a complete capture, earlier hunks explain |
| ReviewText.ParseRendered | libraries/diffmodel/review_compose.go:448-517 | printed hunks of any rows parse back to the same rows, line endings and zero-based coordinates, empty sides and missing newlines included, whatever the paths, if the format can hold them, and are refused if it cannot |
| DiffReading.ParsedWritten | libraries/diffmodel/review_compose.go:448-517 | nothing is accepted but what is there: in a diff whose last line ends, the hunks accepted are exactly those written in it, each a header with its two ranges and then its rows, line for line, up to the next header or the end |
| DiffReading.RangeGrammar | libraries/diffmodel/review_compose.go:519-542 | exactly which ranges are read and as what: with and without a length, empty ones, numerals with signs and zeros, and the two limits |
| DiffReading.WordsRead | libraries/diffmodel/review_compose.go:466-474 | the words of a header are read whatever white space stands before and between them |
| DiffReading.FirstChangeMeans | libraries/diffmodel/review_compose.go:484-500 | a hunk's change is recorded at its first changed row |
| DiffReading.UnifiedMeans | libraries/diffmodel/review.go:79-87 | the first line of a diff is left out exactly if the path lines follow it |
| ReviewText.RangeRoundTrip | libraries/diffmodel/review.go:231-236 | a printed range parses back to its start and length if the format can hold it, and does not parse otherwise |
| ReviewRender.RenderCarries | libraries/diffmodel/review.go:197-222 | the hunks of any valid grouping of two texts carry the one to the other |
| ReviewRender.RenderReviewGroups | libraries/diffmodel/review.go:197-222 | the loop prints the operation, the path lines if there is a group, and every group as the hunk whose sides are its two stretches |
| DiffReading.DiffWording | libraries/diffmodel/review.go:197-236 | the printed text in so many words: add, delete, move or update, and both paths; the old path behind dashes and the new one behind plus signs, an absent one as /dev/null; and the hunks |
| DiffReading.HunkWording | libraries/diffmodel/review.go:204-207 | a hunk header in so many words: the old range behind a minus, the new one behind a plus, between at signs |
| DiffReading.RowWording | libraries/diffmodel/review.go:246-256 | a row is its kind and its text, and one that lacks its newline says so on a line of its own |
| DiffReading.OpWording | libraries/diffmodel/review.go:208-219 | what an opcode removes is printed before what it adds, and what it keeps as context |
| LineCounts.CountLines | libraries/diffmodel/review.go:119-134 | the added and removed lines among hunks are counted, and -1 stands for what is not known |
| LineCounts.CountsRows | libraries/diffmodel/review.go:119-134 | for every diff that parses, the counts are the numbers of its '+' and '-' rows if and only if its first line is not both dropped as the operation and a hunk header |
| LineCounts.PathLinesCounted | libraries/diffmodel/review.go:79-134 | a diff whose first line only begins like a hunk header, then the path lines: no rows are parsed, but one added and one removed line are counted |
| LineCounts.CountsRendered | libraries/diffmodel/review.go:119-134 | the counts of a rendered diff are those of the rows it was rendered from |
| Anchors.NearestReviewRun | libraries/diffmodel/review_merge.go:145-156 | the occurrence at or behind the cursor nearest to the expected place, the earlier of two equally near; none only if there is none; an empty run only at the end |
| Anchors.AnchorReviewRegion | libraries/diffmodel/review_merge.go:158-203 | of all candidates of all levels of dropped context, the region nearest to its recorded place, and of equally near ones the first in the order less dropped, leading anchor, trailing anchor, position; none only if there is no candidate (`Anchors.RegionMissed` says which there are) |
| Anchors.RegionMissed | libraries/diffmodel/review_merge.go:158-217 | nothing is missed: for every number of lines that may be given up, and either edge kept on either side, wherever the kept leading lines stand at or behind the cursor and the kept trailing lines within twice the changed lines and twenty behind them, a region is chosen that is no farther from its place, and if as far, gives up less, keeps the lines next to the change, or comes first |
| Anchors.RegionFound | libraries/diffmodel/review_merge.go:158-217 | nothing is made up: of a chosen region's context as many lines are kept as its level leaves, one at least, on one edge of either side; they stand there, the trailing ones for the first time and near enough |
| Anchors.ChosenOnce | libraries/diffmodel/review_merge.go:158-203 | the text decides that region and its anchors: two choices are equal |
| Diff3.MergeReviewLines | libraries/diffmodel/review_merge.go:229-266 | the three-index loop gives the merge of the chunks the matcher's blocks cut the texts into, and the number of its conflicts; `MergeReading.ResolvedMeans`, `MergeReading.MergeCut` and `MergeReading.MergeRead` say what that is |
| MergeReading.ResolvedMeans | libraries/diffmodel/review_merge.go:250-264 | what only one side changes is that side's, what both change alike is taken once, and a conflict is the workspace's lines behind `<<<<<<< workspace`, then `=======`, then the other side's lines and `>>>>>>>` with the name, each side's last line with a newline |
| MergeReading.MergeRead | libraries/diffmodel/review_merge.go:229-266 | whoever reads the output by its marker lines alone, of sides without any, and keeps the first side of every block has the merge that prefers the workspace, and with the second the one that prefers the other side |
| MergeReading.PreferredSide | libraries/diffmodel/review_merge.go:229-266 | where every changed chunk conflicts, and no side lacks a newline, what is read is that side itself, line for line |
| MergeReading.ConflictsMarked | libraries/diffmodel/review_merge.go:229-266 | as many marked blocks are read as conflicts are counted |
| MergeReading.MergeCut | libraries/diffmodel/review_merge.go:234-249 | a line of the base is a chunk of its own exactly if it is matched on both sides, and it stands where its partners do; changes lie between such lines, no two side by side |
| MergeReading.MatchesExactly | libraries/diffmodel/review_merge.go:268-280 | a line's partner is the one its block gives it, and only a line in no block has none |
| Diff3.MergeTiles | libraries/diffmodel/review_merge.go:229-266 | every line of the base and of both sides is in exactly one chunk, in order |
| Diff3.MergeOfSwapped | libraries/diffmodel/review_merge.go:225-266 | swapping the sides gives as many conflicts, and without conflicts the same text |
| Diff3.MergeLaws | libraries/diffmodel/review_merge.go:225-266 | equal sides give themselves without conflict; where the matcher finds the base in itself, a side equal to the base gives the other |
| Merge.ReplayHunk | libraries/diffmodel/review_merge.go:63-95 | a hunk replaces its nearest occurrence, unless that would end the file early; else it is merged into the region its context anchors; else it counts as present within its own length of its place; else it is rejected, and the text, cursor, offset and counts are what that outcome leaves |
| DiffReading.RejectedReads | libraries/diffmodel/review_merge.go:129-139 | the text of a rejected hunk, behind an operation and the path lines, is a diff that parses to just that hunk |
| MergeSteps.DecidedOnce | libraries/diffmodel/review_merge.go:63-95 | the text decides the outcome of a hunk: no two outcomes are both right |
| MergeSteps.TracedOnce | libraries/diffmodel/review_merge.go:59-99 | the text decides every outcome and every state of a whole replay |
| Merge.TraceOutput | libraries/diffmodel/review_merge.go:59-99 | the output is the text with disjoint, increasing windows rewritten, at most one for every hunk not rejected, and every line outside them survives in order; of texts it is a text: only its last line may lack a newline |
| MergePlan.RenderedPlan | libraries/diffmodel/review_merge.go:42-59 | a rendered capture, cut into compact hunks, is a plan from its first text to its second, and backwards; it is read back and cut so exactly if the format can hold both forms, and refused otherwise |
| Merge.MergeReview | libraries/diffmodel/review_merge.go:32-99 | it fails exactly on directories, incomplete, binary or malformed captures; otherwise it reports the outcomes and states the text decides, and their content, conflicts, present and rejected hunks; if every hunk is rejected the content is unchanged; a capture rendered from texts of any size is accepted exactly if the format can hold it and its compact form, and then replayed on its first text gives the second, and undone on the second gives the first, without conflicts or rejections; on any text, only the last line of its output may lack a newline |
| Merge.UnmergeableMeans | libraries/diffmodel/review_merge.go:32-57 | which of its reasons a refusal gives: a directory, then an incomplete history, then binary content, then hunks that do not parse |
| SessionItems.MergeKeeps | backends/codex/responses/session.go:354-381 | reconciling keeps every streamed item's place and identity; an identity the snapshot names has its last item from there, any other stays as it was |
| SessionItems.MergeIdempotent | backends/codex/responses/session.go:354-381 | reconciling twice with the same snapshot is reconciling once |
| SessionItems.MergeOutput | backends/codex/responses/session.go:356-381 | the loop over a map of positions puts every terminal item in the last place of its identity, or a new one |
| SessionFacts.OnePlace | backends/codex/responses/session.go:252-296 | while steers are conserved, which every method of a session keeps, each one submitted is waiting, failed, or in the input of exactly one node, exactly once, in front of the input its command gave the node |
| Session.SessionHistory.AddSteering | backends/codex/responses/session.go:79-89 | a steer that decodes and fits the budget waits last, with its parent and no identity; its bytes are charged even if it is refused |
| Session.SessionHistory.ObserveControl | backends/codex/responses/session.go:252-279 | the first steer the provider can mean gets its identity, or fails and is taken out; no other is touched, and all are conserved |
| Session.MeantIs | backends/codex/responses/session.go:252-279 | an acknowledgement is for the oldest unnamed steer of its parent; a refusal with a name is for the steer of that name, one without for the oldest unnamed steer of its parent; nothing else is for any |
| Session.SessionHistory.CommitSteering | backends/codex/responses/session.go:284-296 | exactly the parent's acknowledged steers leave the queue and stand, in order, in front of the node's input; the ledger books exactly those as taken by the node, and no other fate and no command's own input changes |
| SessionFacts.AckedMeans | backends/codex/responses/session.go:284-296 | a steer is committed if it has a name and this parent, and stays in the queue if not, in order among the others |
| Session.SessionHistory.ItemsOf | backends/codex/responses/session.go:206-217 | the walk up the tree gives the node's whole conversation, oldest first |
| Session.SessionHistory.Prepare | backends/codex/responses/session.go:92-189 | the request is the parent's whole conversation, the steers acknowledged for it, and the command's own input; an explicit command's request has exactly the command's own fields and asks for a stream, and its node keeps them but for the request not to generate, whatever its parent's settings; a response the provider started has its parent's; it is accepted exactly if it is not refused for its reason, decodes, fits the budget and can be encoded, every refusal is the first that applies, and it changes nothing but the charge |
| Session.SessionHistory.RefusalMeans | backends/codex/responses/session.go:92-128 | which commands are refused before their input is looked at: malformed ones, ones for a lane of their own, and any that continue a response not known here |
| Session.SessionHistory.SettingsInherited | backends/codex/responses/session.go:145-154 | a response the provider starts by itself has the settings of the explicit command it goes back to, through any number of others, and never inherits that none was asked for |
| Session.SessionExchange.Reconcile | backends/codex/responses/session_provider.go:40-88 | a prefix is left out exactly if a confirmed parent and the steers normalize to it; an automatic response must be all prefix; any other request that names a parent is rebased, for the reason that holds |
| Session.SessionExchange.Send | backends/codex/responses/session_provider.go:40-109 | what a stateful provider makes of the wire is the whole projected input: of a cached prefix only the rest is sent, under the parent's name, otherwise everything without it; it fails exactly for an automatic response whose input is not cached |
| Session.SessionExchange.ObserveProvider | backends/codex/responses/session_provider.go:126-181 | at creation the conversation is heard anew with the steers acknowledged by then; only a successful end with an identity confirms, and what it confirms is the conversation the provider holds under that identity, with the reconciled output, unless the parent is an identity the provider gave away anew and the session has not heard of it; all else leaves the evidence alone |
| Session.SessionExchange.ObserveOutput | backends/codex/responses/session.go:298-352 | creation commits the acknowledged steers for good; items are appended as delivered; a terminal with an identity files the node under it with its reconciled output, confirmed or not; an error files nothing |
| SessionRun.TakeTurn | backends/codex/responses/session.go:92-352 | one whole turn, with steers submitted, acknowledged and refused before, during and after sending, projected by any function, on any session, ended in any way: the session's conversation is the parent's, exactly the steers acknowledged for it by creation, the command's input and the reconciled output; a response that ends well is confirmed to hold what the provider was told, which `ToldFor` computes from the wire, and the output; one that does not is filed and confirms nothing; steers of other parents are left; and an acceptable turn within the budget succeeds, and only such a one |
| SessionRun.WireHeard | backends/codex/responses/session_provider.go:40-124 | the provider makes the whole projected request of the wire, unless it acknowledged other steers on top of its own conversation than the request was prepared with |
| SessionRun.FaithfulHeld | backends/codex/responses/session_provider.go:15-22 | in a faithful session the provider holds, under the identity of every confirmed response, exactly the conversation the session would replay; any input sent on top of it, with any steers acknowledged, is heard as the whole conversation sent in full |
| SessionRun.FaithfulTurn | backends/codex/responses/session_provider.go:24-181 | a turn that is not projected, on any faithful session, whether or not its responses are confirmed, and ended in any way: if the response ends well, the session stays faithful if and only if the turn is in time, that is, continues a confirmed response or the steers acknowledged at creation are those it was prepared with; otherwise it stays faithful; a turn that fails keeps it so unless the provider gave a known identity away anew; it succeeds whenever its command may follow, within the budget |
| SessionLate.SteeredAside | backends/codex/responses/session_provider.go:111-150 | a new session and one turn with a late steer for no parent: the session's conversation holds the steer, and the provider's confirmed one does not |
| SessionLate.SteeredAstray | backends/codex/responses/session_provider.go:111-174 | a new session, a turn whose response fails, and one on top of it with a late steer: the session's conversation holds the steer, and the provider's confirmed one does not |
| SessionRun.Converse | backends/codex/responses/session_provider.go:24-181 | over every run of turns, ended in any way, each continuing a confirmed response or with nothing between its request and its response, the session stays faithful; a script of turns that each begin anew, continue an earlier response, or are started by the provider on top of a confirmed one, within the budget, is carried through to the end |
| StreamEvents.Lifecycle | backends/codex/responses/stream.go:80-194 | in every accepted log only the first event creates the response and only the last ends it, items finish as 0, 1, 2 and so on, and the end lists exactly the finished items |
| StreamEvents.DeltasMakeText | backends/codex/responses/stream.go:121-162 | the deltas since an item was opened make up its finished text, part and message content |
| StreamEvents.Ordered | backends/codex/responses/stream.go:320-436 | a message is preceded by reasoning only, and once there is a call, only calls follow |
| Stream.Stream.ReadStream | backends/codex/responses/stream.go:196-319 | whatever the chunks hold and wherever a write fails, the client follows; every choice is recorded, and a fault means a failed write, or is the reason the first chunk that cannot follow those before it is refused |
| Stream.Stream.Consume | backends/codex/responses/stream.go:196-319 | a chunk that is taken in is answered at once: its last event tells text, if it said any or reasoned before any was said, and reports progress if not; a chunk that is refused is refused for an error of its own or for choices that cannot stand, named exactly; its name and usage count even then, unless the chunk itself is at fault |
| Stream.Stream.FinishStream | backends/codex/responses/stream.go:320-436 | it succeeds exactly for a supported reason with calls exactly if it says so, all valid, and all written, and else names what is wrong, with the first call that is refused; the items are then all that was heard, once, under identities of their own: reasoning told, one message, reasoning held, calls; where reasoning is replayed, the sealed items are exactly those retained, in their two places and with the text that preceded each, elsewhere all reasoning is shown; the last event holds exactly the response that is returned; otherwise no call was exposed |
| Stream.Stream.Read | backends/codex/responses/stream.go:80-436 | for every stream and every failing write, the client accepts the log; the first event names the model asked for; it completes exactly if the stream is translatable and all was written, with everything the stream said: the reasoning, sealed item for item where it is replayed, one message, the calls, the model last named and the usage last reported, and the last event is that response; a described failure ends with an event of exactly the items already finished, and the model and usage heard so far; every failure is for the first reason there is; no call is exposed unless all are valid; nothing is written after a failed write |
| StreamChunks.KeptOnce | backends/codex/responses/stream.go:196-212 | every retained item a stream carries is sealed exactly once, among the reasoning told or the reasoning held, however reasoning, text and retained items alternate |
| StreamChunks.SealedWith | backends/codex/responses/stream.go:108-150 | a retained item carries all the reasoning since the last one or since the message started; it is told if the client was reading that reasoning, and held if not |
| StreamChunks.CountedMeans | backends/codex/responses/stream.go:213-225 | output tokens hold the completion and its reasoning once, and the total input and output; reasoning is the detailed count, or the plain one without it |
| StreamChunks.LastReports | backends/codex/responses/stream.go:210-225 | the model last named and the usage last reported are the ones that stand |
| StreamChunks.FinishMeans | libraries/modelprotocol/chat/finish.go:15-37 | stop and tool calls complete a response, length and content filter leave it incomplete, for their own reasons, and nothing else ends it |
| Stream.InputMeans | backends/codex/responses/stream.go:374-393 | a custom tool's input is the text its one argument holds, any other tool's its arguments as they stand; otherwise the fault says which of malformed, more than one field, or no text they are |

## Left out

- Chain.Compose: what a mixed history of hidden and visible captures hides is stated capture by capture (`Composing.Composes`) and for histories of one kind; no closed form is given for the others.  The room asked for is what suffices for every capture, by its rows or by the files; the exact condition on remembered lines (`Capacity.Oversized`) is that of a single capture.
- Composing.VisibleCapture: the condition is about the edited regions and the matcher's opcodes for them, which a caller can compute before re-diffing, not about the capture's text alone.
- SessionRun.Converse: a turn on top of no confirmed response may have nothing going on between its request and its response, where `SessionRun.FaithfulTurn` has the exact condition.
- SessionRun.FaithfulTurn: a provider that gives an identity away a second time is modelled, but the session cannot tell which conversation it means until the response is delivered; a turn that fails in between leaves the session in doubt of that identity, and nothing more is promised of it.
- Session: the digest of a fingerprint is the sequence of normalized items itself, that is, taken to be free of collisions; history nodes are indices into a sequence, not pointers; one exchange is under way at a time.
- Session: the provider model remembered for automatic responses (`session.go:56-76`), `FreshInput` and the decoding of commands and events; an item is its identity and its encoding, a setting its name and its encoding.
- Stream: random identities are numbers in order, token counts are unbounded integers, and how a failure is worded is not modelled.
- The matcher: go-difflib is not part of this model beyond its contract, and nothing is assumed of its choice among equal lines; only the laws for a side equal to the base (`Diff3.MergeLaws`) and for restored text (`Composition.ReviewComposition.Normalize`) ask that it find the text at hand in itself.
- ReviewFile variants for binary, incomplete and unbased content (`review.go:149-191`), substituted display paths (`review.go:90-116`) and grouping captures by path (`group.go`): only their flags matter here.
- The provider-specific normalizers (`messages.go`, `responses.go`), SSE framing and usage bounds.
- The rollout prefix reader, the native trace reader, message history trimming, diagnostics, the settings ring buffer, shell instrumentation and the Claude worker.
- Concurrent use of one composition, session or stream: each is used by one goroutine at a time.
