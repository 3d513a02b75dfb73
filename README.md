# Post review queue of skeet-reviewer

skeet-reviewer lets a Bluesky user page through their own posts one at a time
and keep or delete each one. This project models the review queue of the
`BlueskyPostManager` component (`src/App.js`) and proves properties of it.

The queue is built from pages of the author feed. Each feed item is
normalised into a post record and classified as a normal post, a reply or a
repost. Posts whose URI is already in the seen-URI ledger are dropped. The
survivors are added to the ledger and merged into the queue, which is
shuffled when random order is on. A fetch retries a failed request up to
three more times.

The reviewer moves through the queue with a skip scan that passes over posts
the filter flags hide. The flags are: show replies, show reposts, and show
only posts with no likes.

The model has five modules:

- `Posts`: feed items, normalisation, classification and the three filter predicates.
- `Navigation`: the skip scan, as a specification function `NextValid` and the `Advance` loop.
- `Shuffle`: `shuffleArray`, as the Fisher-Yates specification and an array loop.
- `Dedup`: the ledger filter and the merge rule.
- `Queue`: the class `ReviewQueue`. Its fields mirror the component's state. It has one atomic method per handler and per effect.

The network is an input to the model:

- A fetch is given one `FetchOutcome` per attempt. Each outcome is a page with its cursor, or a failure.
- A delete is told whether the remote call succeeded.
- `Math.random` becomes a function `pick` that returns an index in `[0, i]` for each `i`.

A handler's state setters take effect together at the next render. A handler
is therefore modelled as one step whose new state is stored at once. A fetch
reads the `posts` array of the render that started it, called `rendered` in
the model.

The model follows the code in two places where a reader might expect
otherwise:

- A reader might expect a delete of the only post to be counted. It is not: the handler returns before the counter update (src/App.js:341-344).
- A reader might expect a failed delete to show an error. It only stops the loading indicator and sets no error message.

## Model

| member | source | states |
|---|---|---|
| Posts.CountOrZero | src/App.js:145-147 | a missing metric reads as 0; a present one is kept |
| Posts.OrElse | src/App.js:126-135 | definition of `x \|\| fallback` for an optional string: the value when present and non-empty, otherwise the fallback |
| Posts.LastSegment | src/App.js:148 | the result is the suffix of the URI after its last '/' and holds no '/' |
| Posts.BlueskyUrl | src/App.js:148 | definition of the post's web link: the profile URL of the author's DID, then "/post/", then the last segment of the post URI |
| Posts.IsRepostItem | src/App.js:124 | definition: the item carries a reason whose type is the repost reason (used by `ClassifyMatchesPredicates`) |
| Posts.IsReplyItem | src/App.js:123 | definition: the item's record has a reply reference (used by `ClassifyMatchesPredicates`) |
| Posts.Classify | src/App.js:122-131 | definition of the type string: "Repost of @" and the original author when the reason is a repost, else "Reply to @" and the parent author when there is a reply reference, else "Normal Post"; a missing handle reads "unknown" (its prefixes are proved by `ClassifyMatchesPredicates`) |
| Posts.Normalize | src/App.js:133-149 | the post keeps the item's URI; missing metrics are 0; missing text gives the placeholder content |
| Posts.NormalizeAll | src/App.js:121-150 | the page keeps its length and order, item by item |
| Posts.RepostTypeHasRepostPrefix | src/App.js:127 | a repost's type string starts with "Repost of " and not with "Reply to " |
| Posts.ReplyTypeHasReplyPrefix | src/App.js:130 | a reply's type string starts with "Reply to " and not with "Repost of " |
| Posts.ClassifyMatchesPredicates | src/App.js:122-131 | shown as a repost iff the reason is a repost; shown as a reply iff it has a reply reference and is not a repost; otherwise "Normal Post" |
| Posts.MissingLikesPassZeroLikes | src/App.js:145 | a post with missing likes has zero likes and passes the zero-likes filter |
| Posts.DefaultFiltersShowEverything | src/App.js:30-32 | with the default flags no post is hidden |
| Posts.IsReplyPost | src/App.js:291 | definition: the type string is non-empty and starts with "Reply to " |
| Posts.IsRepostPost | src/App.js:292 | definition: the type string is non-empty and starts with "Repost of " |
| Posts.HasZeroLikes | src/App.js:293 | definition: the like count is 0 |
| Posts.Excluded | src/App.js:299-303 | definition of the scan condition: a reply while replies are not shown, a repost while reposts are not shown, or a liked post while only posts without likes are shown |
| Navigation.NextValid | src/App.js:296-309 | the smallest index at or after the start that is past the end or holds a shown post; every skipped post is hidden |
| Navigation.Advance | src/App.js:296-309 | the while loop returns exactly `NextValid` |
| Navigation.NextValidPastEnd | src/App.js:298-299 | a scan starting past the end does not move |
| Navigation.NextValidIdempotent | src/App.js:296-309 | scanning again from where a scan stopped stays put |
| Navigation.StricterFiltersScanFurther | src/App.js:298-303 | hiding more posts never makes the scan stop earlier |
| Navigation.IndexAfterDelete | src/App.js:346-351 | as written: the new length when past it, otherwise a scan from the old index over the list it is given, which stops on a post shown in that list; when the post at the old index of that list is shown, the scan does not move at all |
| Navigation.StaleDeleteScanShowsHiddenPost | src/App.js:346-351 | the scan as written, over the list from before the splice, can land on a hidden reply |
| Navigation.IntendedIndexAfterDelete | src/App.js:346-351 | a scan over the list after the splice lands on a shown post or the end, skipping only hidden posts |
| Navigation.StaleToggleScanShowsHiddenPost | src/App.js:366-375 | the scan as written, with the flags from before the toggle, can stop on a post the new flags hide |
| Navigation.IntendedIndexAfterToggle | src/App.js:366-397 | a scan with the new flags moves strictly forward and stops on a post they show, or at the end |
| Shuffle.Swap | src/App.js:224 | the two cells are exchanged and every other cell stays |
| Shuffle.ShuffleBelow | src/App.js:222-225 | definition of the swap passes for indices `top - 1` down to 1, each exchanging index i with the drawn index (its length and multiset are proved by `ShuffleBelowPermutes`) |
| Shuffle.FisherYates | src/App.js:219-227 | definition of the shuffle of the whole list under the draws `pick` (a permutation by `FisherYatesPermutes`; computed by `ShuffleArray`) |
| Shuffle.SwapPermutes | src/App.js:224 | a swap keeps the multiset |
| Shuffle.ShuffleBelowPermutes | src/App.js:222-225 | the swap passes keep the length and the multiset |
| Shuffle.FisherYatesPermutes | src/App.js:219-227 | for any random draws the shuffle is a permutation of its input |
| Shuffle.IdentityPickKeepsOrder | src/App.js:222-225 | when every draw is the index itself, the order is kept |
| Shuffle.ShuffleArray | src/App.js:219-227 | the loop over a copied array computes the Fisher-Yates shuffle; the result is a permutation and the argument is a value left unchanged |
| Dedup.UrisAppend | src/App.js:166 | adding one post adds exactly its URI |
| Dedup.Unseen | src/App.js:156-161 | the page filter against the ledger from before the page; it never grows the page (its meaning is proved by `UnseenMembership` and `UnseenConcat`) |
| Dedup.UnseenMembership | src/App.js:156-161 | a post is admitted iff it is on the page and its URI was not seen before the page |
| Dedup.UnseenConcat | src/App.js:156-161 | the filter keeps received order |
| Dedup.UnseenKeepsFreshPage | src/App.js:156-161 | a page with no seen URI is admitted whole |
| Dedup.EmptyLedgerAdmitsAll | src/App.js:156-161 | against an empty ledger the whole page is admitted |
| Dedup.DuplicatesWithinPageSurvive | src/App.js:156-166 | two copies of one unseen URI on a page are both admitted |
| Dedup.SeenNeverReadmitted | src/App.js:156-161 | a URI in the ledger is never admitted again |
| Dedup.UnseenKeepsDistinct | src/App.js:156-161 | filtering a page with distinct URIs keeps them distinct |
| Dedup.Merge | src/App.js:168-173 | the admitted posts alone when a fresh fetch is forced; otherwise the rendered list followed by the admitted posts |
| Dedup.MergeKeepsDistinct | src/App.js:156-173 | the merge of a queue with distinct URIs, all in the ledger, and the admitted part of a page with distinct URIs has distinct URIs (the shuffle of lines 175-178 is not covered) |
| Queue.RemoveAt | src/App.js:334-335 | the splice removes exactly one element; the others keep their order |
| Queue.Admitted | src/App.js:121-161 | definition of the posts a page admits: the normalised page filtered against the ledger (membership by `Dedup.UnseenMembership`, used in `FetchPageMerges`) |
| Queue.PostsAfterPage | src/App.js:168-178 | definition of the queue after a page: the merge, shuffled when the order is randomized (a permutation of the merge by `PostsAfterPagePermutes`; computed by `BuildPage`) |
| Queue.PostsAfterPagePermutes | src/App.js:168-178 | the new queue is a permutation of the merge, and the merge itself when not randomized |
| Queue.CursorAfterPage | src/App.js:184-190 | the response cursor when it is non-empty, otherwise none; a stored cursor is never empty |
| Queue.LoadingAfterPage | src/App.js:197-203 | on for a first batch, off for an empty queue, otherwise unchanged |
| Queue.PageKeepsCover | src/App.js:156-178 | after a page every queued URI is in the ledger |
| Queue.BuildPage | src/App.js:168-178 | the merge, shuffled when randomized |
| Queue.AttemptsFrom | src/App.js:205-211 | the retry chain makes at most `retries + 1` attempts; every attempt but the last failed |
| Queue.AttemptsMade | src/App.js:100 | from the first attempt: between 1 and `retries + 1` attempts, and it stops early only on a page |
| Queue.CountAttempts | src/App.js:205-211 | the retry loop makes exactly `AttemptsMade` attempts |
| Queue.OutcomeKeepsValid | src/App.js:156-216 | the last attempt keeps every queued URI in the ledger and never stores an empty cursor |
| Queue.AfterPage | src/App.js:156-203 | definition of the state after a page: the ledger grows by the admitted URIs, the queue is `PostsAfterPage`, the cursor is `CursorAfterPage`, the reset flag is cleared and the loading flag is `LoadingAfterPage` (properties in `FetchPageMerges`) |
| Queue.AfterOutcome | src/App.js:205-216 | definition of the last attempt: a failure sets the error message and stops loading; a page gives `AfterPage` of the normalised page |
| Queue.AfterFetch | src/App.js:100-217 | definition of a whole fetch: no attempt and no change without a session, otherwise `AttemptsMade` attempts and `AfterOutcome` of the last one (properties in the `Fetch…` lemmas) |
| Queue.FetchWithoutSessionIsInert | src/App.js:101-104 | without an agent and an account a fetch does nothing |
| Queue.FetchRetriesOnFailure | src/App.js:205-211 | the attempt count is bounded by `retries + 1` (4 by default); only failures lead to another attempt |
| Queue.FetchFailureShowsError | src/App.js:212-215 | when every attempt fails, the error is set and loading stops; queue, ledger, cursor and reset flag stay |
| Queue.FetchPageMerges | src/App.js:156-203 | on a page the ledger grows by the admitted URIs; the queue is the merge, possibly permuted; the cursor is stored and the reset flag cleared |
| Queue.InitialFetchLoadsFirstPage | src/App.js:229-236 | the first fetch fills an empty queue with the admitted posts and turns loading on iff there are any |
| Queue.RefillAppends | src/App.js:245-249 | a refill from the cursor appends the admitted posts when the order is not randomized; when it is, the new queue is a permutation of the whole old queue plus the admitted posts (already reviewed posts included, the index unchanged); a failed refill keeps queue and cursor |
| Queue.RenderedPostsSurvivePage | src/App.js:168-182 | a page from a cursor merges over the list the fetch's closure rendered: every post of that list is in the new queue, even one the state no longer holds |
| Queue.FreshFetchReplacesQueue | src/App.js:253-261 | the reset fetch replaces the queue with the whole page; the ledger becomes exactly its URIs |
| Queue.LandAfterDelete | src/App.js:346-351 | the landing step computes the intended delete index |
| Queue.AfterDelete | src/App.js:330-362 | definition of a delete with an agent: only loading stops when there is no current post or the remote call fails; otherwise the post is spliced out, and unless the queue is now empty the index lands by `IntendedIndexAfterDelete` and one deletion is counted (properties in the `Delete…` lemmas) |
| Queue.DeleteStep | src/App.js:330-362 | the delete steps compute `AfterDelete` |
| Queue.DeleteKeepsCover | src/App.js:338-339 | a delete keeps every remaining URI in the ledger |
| Queue.DeleteFailureKeepsQueue | src/App.js:359-362 | a failed delete keeps queue, index and counter, and loading stops |
| Queue.DeleteRemovesCurrent | src/App.js:334-335 | a successful delete removes exactly the current post and keeps the others in order |
| Queue.DeleteOnlyPostIsNotCounted | src/App.js:341-344 | deleting the only post empties the queue; index and counter are unchanged and loading stops |
| Queue.DeleteLandsOnShownPost | src/App.js:346-357 | otherwise one deletion is counted; the index lands at or after the old one, on a shown post or at the end; loading is on iff a post is current |
| Queue.ReviewQueue.constructor | src/App.js:17-39 | the initial state: empty queue and ledger, zero counters, default flags |
| Queue.ReviewQueue.SignedIn | src/App.js:59-62 | a login or resume with an agent sets authenticated and the account |
| Queue.ReviewQueue.HasSession | src/App.js:101 | definition of the fetch guard: an agent and an account DID exist (its negation is the case of `FetchWithoutSessionIsInert`) |
| Queue.ReviewQueue.InitialFetchDue | src/App.js:231 | definition of the initial-fetch guard: authenticated, with an agent and an account, an empty queue and no pending reset |
| Queue.ReviewQueue.RefillDue | src/App.js:245-246 | definition of the low-water condition: fewer than 5 posts after the current one, a non-empty cursor and no pending reset |
| Queue.ReviewQueue.AllReviewed | src/App.js:522 | definition of the "all posts reviewed" condition: no current post, no cursor and no pending reset |
| Queue.ReviewQueue.Ingest | src/App.js:156-203 | the success path stores exactly `AfterPage` |
| Queue.ReviewQueue.MarkSeen | src/App.js:166 | the ledger grows by exactly the admitted URIs |
| Queue.ReviewQueue.Publish | src/App.js:182-195 | queue, cursor, reset flag and loading flag are stored |
| Queue.ReviewQueue.ReportFailure | src/App.js:212-215 | the error message is set and loading stops |
| Queue.ReviewQueue.FetchPosts | src/App.js:100-217 | the fetch stores exactly `AfterFetch` and keeps the ledger invariant |
| Queue.ReviewQueue.Settle | src/App.js:205-216 | the last attempt stores exactly `AfterOutcome` |
| Queue.ReviewQueue.InitialFetch | src/App.js:229-236 | fetches the first page exactly when the guard holds; otherwise nothing changes |
| Queue.ReviewQueue.ShowCurrent | src/App.js:240-243 | loading turns on when a current post with a URI exists |
| Queue.ReviewQueue.OnQueueChange | src/App.js:238-251 | refills from the cursor exactly at the low-water mark |
| Queue.ReviewQueue.ClearForFreshFetch | src/App.js:256-259 | queue, cursor, index and ledger are cleared |
| Queue.ReviewQueue.ForceFreshReset | src/App.js:253-263 | with a pending reset and a session, clears and fetches the first page with the old queue as `rendered` |
| Queue.ReviewQueue.Keep | src/App.js:311-320 | the index becomes the scan from the next index; the kept count grows by exactly 1; loading is on iff a post is current; the ledger invariant holds |
| Queue.ReviewQueue.Delete | src/App.js:322-363 | without an agent nothing changes; otherwise the queue state becomes `AfterDelete` and the ledger invariant holds |
| Queue.ReviewQueue.HandleFilterRepliesChange | src/App.js:366-375 | hiding replies while a reply is current moves on to a post the new flags show; otherwise the index stays |
| Queue.ReviewQueue.HandleFilterRepostsChange | src/App.js:377-386 | the same for reposts |
| Queue.ReviewQueue.HandleFilterZeroLikesChange | src/App.js:388-397 | the same for the zero-likes filter, switched on while a liked post is current |
| Queue.ReviewQueue.HandleRandomizeChange | src/App.js:399-413 | switching on permutes a non-empty queue and returns to index 0; switching off requests a fresh fetch |
| Queue.ReviewQueue.HandleLogout | src/App.js:415-435 | session ended; queue, ledger, counters, error and cursor cleared; every filter and settings flag back to default; the loading flag is kept |
| Queue.ReviewQueue.EndSession | src/App.js:418-426 | no authentication, agent or account |
| Queue.ReviewQueue.ClearReview | src/App.js:422-434 | queue, index, counters, error, cursor and ledger cleared |
| Queue.ReviewQueue.ResetSettings | src/App.js:429-433 | the filter flags, random order and the reset flag are back to default |
| Queue.ReviewQueue.EmbedSettled | src/App.js:271-279 | the embed's loaded or error event stops loading |
| Queue.ReviewedScreenIsQuiescent | src/App.js:522 | on the "all posts reviewed" screen no refill is due |

## Left out

- Agent construction, session resume and persistence, `localStorage`, and the login form (`handle`, `appPassword`). A successful login or resume is the `SignedIn` step. The agent and the account DID are booleans.
- `agent.getAuthorFeed` and `agent.deletePost` are inputs: one outcome per fetch attempt, and one success flag per delete. A page with a malformed item throws inside the try; the input gives such an attempt as `Failed`.
- The 2-second `setTimeout` between retries, and the order and timing of effects and re-renders. Each handler, effect and fetch is one atomic step.
- Overlapping fetches are not modelled. The component has no in-flight gate, and two fetches can interleave; the model runs one fetch at a time.
- `Math.random` is the `pick` input: any draw in `[0, i]`, not a distribution.
- Date formatting of `createdAt` (`toLocaleString`) is not modelled. `createdAt` is an opaque string.
- The `limit: 50` page size is not modelled. The page is whatever the input gives.
- The render: the JSX, the embed element, and every `console.log` and `alert`.
- `src/ErrorBoundary.js` is not part of this model. It is a UI component with no queue logic.
- The post record's `type` field is named `kind` in the model.
- Handlers that run while a fetch is pending. A fetch and each of its retries run after an await, in the closure of the render that started the fetch, and merge over that render's `posts` (src/App.js:172, 182, 209-211). In the model a fetch is one step, and the invariants (`Valid`, the ledger cover) and the delete lemmas are proved only for that one-step order. In the source:
  - a delete that lands while a refill is pending is undone: the deleted post comes back (`Queue.RenderedPostsSurvivePage` shows that every post of the stale list is kept);
  - a forced reset or a logout that lands while a fetch is pending is overwritten by a queue whose URIs are missing from the cleared ledger;
  - a handler can change the randomize or reset flag between two attempts of a fetch.

## Findings

| source | as written | input that shows it | evidently intended | confidence | as-written member | corrected member |
|---|---|---|---|---|---|---|
| src/App.js:346-351 | after the splice, `advanceToNextValidPost` scans `posts`, the list from before the splice, so the post that moved into the deleted slot is never tested | queue `[a, b]` with `b` a reply, replies hidden, index 0; deleting `a` lands on index 0, which is now the hidden reply `b` | scan `updatedPosts`, so the queue lands on a post the filters show, or at the end | not executed | Navigation.StaleDeleteScanShowsHiddenPost | Navigation.IntendedIndexAfterDelete |
| src/App.js:366-397 | each filter handler scans with the flag values from before its own setter takes effect | queue of two replies, index 0, replies shown; hiding replies moves to index 1, another reply, which the new flags hide | scan with the new flag values | not executed | Navigation.StaleToggleScanShowsHiddenPost | Navigation.IntendedIndexAfterToggle |

`Queue.ReviewQueue.Delete` and the three filter handlers use the corrected
scans.
