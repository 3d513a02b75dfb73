/**
 * The post review queue of the `BlueskyPostManager` component: its state
 * fields, one atomic method per handler and per effect, and the derived
 * conditions the effects and the render test.
 *
 * The network is an oracle: a fetch is given one `FetchOutcome` per attempt,
 * a delete is told whether the remote call succeeded, and the random draws of
 * the shuffle are a `pick` function.
 */
module Queue {
  import opened Posts
  import opened Navigation
  import opened Shuffle
  import opened Dedup

  /** The default of `fetchPosts`'s `retries` parameter. */
  const DefaultRetries: nat := 3

  const FetchFailedMessage: string :=
    "Failed to fetch posts after multiple attempts. Please check your network connection or try again later."

  /** The low-water mark: a refill is due when fewer posts than this lie after the current one. */
  const LowWaterMark: int := 5

  /** What one author-feed request yields; a missing response or missing data is a failure. */
  datatype FetchOutcome = Failed | Page(feed: seq<FeedItem>, nextCursor: Option<string>)

  /** The splice at index `i`: every other post stays, in order. */
  function RemoveAt(s: seq<Post>, i: nat): (r: seq<Post>)
    requires i < |s|
    ensures |r| == |s| - 1
    ensures forall k :: 0 <= k < i ==> r[k] == s[k]
    ensures forall k :: i <= k < |r| ==> r[k] == s[k + 1]
    ensures multiset(r) == multiset(s) - multiset{s[i]}
  {
    assert s == s[..i] + [s[i]] + s[i + 1..];
    s[..i] + s[i + 1..]
  }

  /** The posts of a page that pass the ledger. */
  function Admitted(feed: seq<FeedItem>, seen: set<string>): seq<Post> {
    Unseen(NormalizeAll(feed), seen)
  }

  /** The queue after a page: the merge, shuffled when the order is randomized. */
  function PostsAfterPage(rendered: seq<Post>, admitted: seq<Post>, forceFresh: bool, randomize: bool,
                          cursorParam: Option<string>, pick: nat -> nat): seq<Post>
    requires IsPicker(pick)
  {
    var merged := Merge(rendered, admitted, forceFresh, cursorParam);
    if randomize then FisherYates(merged, pick) else merged
  }

  /**
   * Whatever the random draws, the queue after a page holds exactly the posts
   * of the merge, and is the merge itself when the order is not randomized.
   */
  lemma PostsAfterPagePermutes(rendered: seq<Post>, admitted: seq<Post>, forceFresh: bool, randomize: bool,
                               cursorParam: Option<string>, pick: nat -> nat)
    requires IsPicker(pick)
    ensures multiset(PostsAfterPage(rendered, admitted, forceFresh, randomize, cursorParam, pick)) ==
            multiset(Merge(rendered, admitted, forceFresh, cursorParam))
    ensures !randomize ==> PostsAfterPage(rendered, admitted, forceFresh, randomize, cursorParam, pick) ==
                           Merge(rendered, admitted, forceFresh, cursorParam)
  {
    FisherYatesPermutes(Merge(rendered, admitted, forceFresh, cursorParam), pick);
  }

  /** The cursor after a page: the response cursor when it is truthy, otherwise none. */
  function CursorAfterPage(nextCursor: Option<string>): (r: Option<string>)
    ensures r.Some? ==> r.value != ""
    ensures Truthy(nextCursor) ==> r == nextCursor
    ensures !Truthy(nextCursor) ==> r == None
  {
    if Truthy(nextCursor) then nextCursor else None
  }

  /** The loading flag after a page: on for a first batch, off for an empty queue, else kept. */
  function LoadingAfterPage(before: bool, newLength: nat, renderedLength: nat, cursorParam: Option<string>): (r: bool)
    ensures newLength == 0 ==> !r
    ensures newLength > 0 && renderedLength == 0 && !Truthy(cursorParam) ==> r
    ensures newLength > 0 && (renderedLength > 0 || Truthy(cursorParam)) ==> r == before
  {
    if newLength > 0 && renderedLength == 0 && !Truthy(cursorParam) then true
    else if newLength == 0 then false
    else before
  }

  /** Every post's URI is in the ledger. */
  ghost predicate Covered(ps: seq<Post>, seen: set<string>) {
    forall p :: p in ps ==> p.uri in seen
  }

  /**
   * After a page every queued post is in the ledger, shuffled or not: the
   * rendered posts were already there (unless a fresh fetch drops them) and
   * the admitted ones are marked seen.
   */
  lemma PageKeepsCover(rendered: seq<Post>, fetched: seq<Post>, seen: set<string>, forceFresh: bool,
                       randomize: bool, cursorParam: Option<string>, pick: nat -> nat)
    requires IsPicker(pick)
    requires forceFresh || Covered(rendered, seen)
    ensures Covered(PostsAfterPage(rendered, Unseen(fetched, seen), forceFresh, randomize, cursorParam, pick),
                    seen + Uris(Unseen(fetched, seen)))
  {
    var admitted := Unseen(fetched, seen);
    var merged := Merge(rendered, admitted, forceFresh, cursorParam);
    var shuffled := PostsAfterPage(rendered, admitted, forceFresh, randomize, cursorParam, pick);
    PostsAfterPagePermutes(rendered, admitted, forceFresh, randomize, cursorParam, pick);
    forall p | p in shuffled ensures p.uri in seen + Uris(admitted) {
      assert p in multiset(merged);
    }
  }

  /** `shuffleArray` applied when the order is randomized, to the merge of a page. */
  method BuildPage(rendered: seq<Post>, unique: seq<Post>, forceFresh: bool, randomize: bool,
                   cursorParam: Option<string>, pick: nat -> nat) returns (newPosts: seq<Post>)
    requires IsPicker(pick)
    ensures newPosts == PostsAfterPage(rendered, unique, forceFresh, randomize, cursorParam, pick)
  {
    if forceFresh || (!Truthy(cursorParam) && |rendered| == 0) {
      newPosts := unique;
    } else {
      newPosts := rendered + unique;
    }
    if randomize {
      newPosts := ShuffleArray(newPosts, pick);
    }
  }

  /**
   * The retry chain of `fetchPosts` from attempt `k` (counted from 0) on: a
   * failure with retries left leads to the next attempt. The result is the
   * number of attempts made: up to and including the first page among the
   * first `retries + 1` outcomes, or all of those when every one fails.
   */
  function AttemptsFrom(outcomes: seq<FetchOutcome>, retries: nat, k: nat): (n: nat)
    requires k <= retries < |outcomes|
    ensures k + 1 <= n <= retries + 1
    ensures forall j :: k <= j < n - 1 ==> outcomes[j].Failed?
    ensures outcomes[n - 1].Failed? ==> n == retries + 1
    decreases retries - k
  {
    if outcomes[k].Failed? && k < retries then AttemptsFrom(outcomes, retries, k + 1) else k + 1
  }

  function AttemptsMade(outcomes: seq<FetchOutcome>, retries: nat): (n: nat)
    requires retries < |outcomes|
    ensures 1 <= n <= retries + 1
    ensures forall j :: 0 <= j < n - 1 ==> outcomes[j].Failed?
    ensures outcomes[n - 1].Failed? ==> n == retries + 1
  {
    AttemptsFrom(outcomes, retries, 0)
  }

  /** The retry chain as a loop: one more attempt per failure while retries are left. */
  method CountAttempts(outcomes: seq<FetchOutcome>, retries: nat) returns (attempts: nat)
    requires |outcomes| > retries
    ensures attempts == AttemptsMade(outcomes, retries)
  {
    attempts := 1;
    var left := retries;
    while outcomes[attempts - 1].Failed? && left > 0
      invariant 1 <= attempts <= retries + 1
      invariant attempts + left == retries + 1
      invariant AttemptsFrom(outcomes, retries, attempts - 1) == AttemptsMade(outcomes, retries)
    {
      left := left - 1;
      attempts := attempts + 1;
    }
  }

  /** The part of the component state a fetch reads and writes. */
  datatype FetchState = FetchState(posts: seq<Post>, seenURIs: set<string>, cursor: Option<string>,
                                   forceFreshFetch: bool, postLoading: bool, errorMessage: string)

  /** Every queued post's URI is in the ledger, and a stored cursor is never empty. */
  ghost predicate ValidState(s: FetchState) {
    Covered(s.posts, s.seenURIs) && (s.cursor.Some? ==> s.cursor.value != "")
  }

  /**
   * The state after a successful attempt that returned the normalised page
   * `fetched` and the response cursor `nextCursor`, for a fetch whose closure
   * rendered `rendered`.
   */
  function AfterPage(s: FetchState, cursorParam: Option<string>, rendered: seq<Post>, fetched: seq<Post>,
                     nextCursor: Option<string>, randomize: bool, pick: nat -> nat): FetchState
    requires IsPicker(pick)
  {
    var admitted := Unseen(fetched, s.seenURIs);
    var newPosts := PostsAfterPage(rendered, admitted, s.forceFreshFetch, randomize, cursorParam, pick);
    FetchState(newPosts, s.seenURIs + Uris(admitted), CursorAfterPage(nextCursor), false,
               LoadingAfterPage(s.postLoading, |newPosts|, |rendered|, cursorParam), s.errorMessage)
  }

  /**
   * The state after the last attempt of a fetch: on a failure the error is
   * shown and the loading indicator goes off; on a page, `AfterPage`.
   */
  function AfterOutcome(s: FetchState, outcome: FetchOutcome, cursorParam: Option<string>, rendered: seq<Post>,
                        randomize: bool, pick: nat -> nat): FetchState
    requires IsPicker(pick)
  {
    match outcome
    case Failed => s.(errorMessage := FetchFailedMessage, postLoading := false)
    case Page(feed, nextCursor) => AfterPage(s, cursorParam, rendered, NormalizeAll(feed), nextCursor, randomize, pick)
  }

  /**
   * A whole `fetchPosts` call: the number of attempts made and the state
   * afterwards. Without a session nothing happens.
   */
  function AfterFetch(s: FetchState, session: bool, cursorParam: Option<string>, rendered: seq<Post>, retries: nat,
                      outcomes: seq<FetchOutcome>, randomize: bool, pick: nat -> nat): (nat, FetchState)
    requires retries < |outcomes| && IsPicker(pick)
  {
    if !session then (0, s)
    else
      var n := AttemptsMade(outcomes, retries);
      (n, AfterOutcome(s, outcomes[n - 1], cursorParam, rendered, randomize, pick))
  }

  /**
   * A page merges over the list the fetch's closure rendered, not over the
   * queue the state holds when the page arrives: every rendered post is in
   * the new queue, even one no longer in `s.posts` (deleted, or cleared by a
   * reset or a logout, while the fetch was pending).
   */
  lemma RenderedPostsSurvivePage(s: FetchState, cursorParam: Option<string>, rendered: seq<Post>, fetched: seq<Post>,
                                 nextCursor: Option<string>, randomize: bool, pick: nat -> nat, x: Post)
    requires IsPicker(pick)
    requires !s.forceFreshFetch && Truthy(cursorParam) && x in rendered
    ensures x in AfterPage(s, cursorParam, rendered, fetched, nextCursor, randomize, pick).posts
  {
    var admitted := Unseen(fetched, s.seenURIs);
    PostsAfterPagePermutes(rendered, admitted, false, randomize, cursorParam, pick);
    assert x in multiset(rendered + admitted);
  }

  /** The last attempt keeps every queued URI in the ledger and never stores an empty cursor. */
  lemma OutcomeKeepsValid(s: FetchState, outcome: FetchOutcome, cursorParam: Option<string>, rendered: seq<Post>,
                          randomize: bool, pick: nat -> nat)
    requires IsPicker(pick)
    requires ValidState(s) && (s.forceFreshFetch || Covered(rendered, s.seenURIs))
    ensures ValidState(AfterOutcome(s, outcome, cursorParam, rendered, randomize, pick))
  {
    if outcome.Page? {
      PageKeepsCover(rendered, NormalizeAll(outcome.feed), s.seenURIs, s.forceFreshFetch, randomize, cursorParam, pick);
    }
  }

  /** Without a session a fetch makes no attempt and changes nothing. */
  lemma FetchWithoutSessionIsInert(s: FetchState, cursorParam: Option<string>, rendered: seq<Post>, retries: nat,
                                   outcomes: seq<FetchOutcome>, randomize: bool, pick: nat -> nat)
    requires retries < |outcomes| && IsPicker(pick)
    ensures AfterFetch(s, false, cursorParam, rendered, retries, outcomes, randomize, pick) == (0, s)
  {
  }

  /**
   * With a session a fetch makes between 1 and `retries + 1` attempts, every
   * one but the last failed, and it stops early only on a page.
   */
  lemma FetchRetriesOnFailure(s: FetchState, cursorParam: Option<string>, rendered: seq<Post>, retries: nat,
                              outcomes: seq<FetchOutcome>, randomize: bool, pick: nat -> nat)
    requires retries < |outcomes| && IsPicker(pick)
    ensures var n := AfterFetch(s, true, cursorParam, rendered, retries, outcomes, randomize, pick).0;
            1 <= n <= retries + 1 && (forall j :: 0 <= j < n - 1 ==> outcomes[j].Failed?) &&
            (outcomes[n - 1].Failed? ==> n == retries + 1)
  {
  }

  /**
   * When every attempt fails the error is shown and the loading indicator
   * goes off; the queue, the ledger, the cursor and the reset flag stay.
   */
  lemma FetchFailureShowsError(s: FetchState, cursorParam: Option<string>, rendered: seq<Post>, retries: nat,
                               outcomes: seq<FetchOutcome>, randomize: bool, pick: nat -> nat)
    requires retries < |outcomes| && IsPicker(pick)
    requires outcomes[AttemptsMade(outcomes, retries) - 1].Failed?
    ensures var t := AfterFetch(s, true, cursorParam, rendered, retries, outcomes, randomize, pick).1;
            t.errorMessage == FetchFailedMessage && !t.postLoading &&
            t.posts == s.posts && t.seenURIs == s.seenURIs && t.cursor == s.cursor &&
            t.forceFreshFetch == s.forceFreshFetch
  {
  }

  /**
   * On a page the admitted posts are marked seen and merged into the queue (a
   * permutation of the merge when randomized, the merge itself otherwise), the
   * response cursor is stored and the reset flag is cleared; the error stays.
   */
  lemma FetchPageMerges(s: FetchState, cursorParam: Option<string>, rendered: seq<Post>, retries: nat,
                        outcomes: seq<FetchOutcome>, randomize: bool, pick: nat -> nat)
    requires retries < |outcomes| && IsPicker(pick)
    requires outcomes[AttemptsMade(outcomes, retries) - 1].Page?
    ensures var page := outcomes[AttemptsMade(outcomes, retries) - 1];
            var admitted := Admitted(page.feed, s.seenURIs);
            var merged := Merge(rendered, admitted, s.forceFreshFetch, cursorParam);
            var t := AfterFetch(s, true, cursorParam, rendered, retries, outcomes, randomize, pick).1;
            t.seenURIs == s.seenURIs + Uris(admitted) &&
            multiset(t.posts) == multiset(merged) && (!randomize ==> t.posts == merged) &&
            t.cursor == CursorAfterPage(page.nextCursor) && !t.forceFreshFetch &&
            t.errorMessage == s.errorMessage
  {
    var page := outcomes[AttemptsMade(outcomes, retries) - 1];
    PostsAfterPagePermutes(rendered, Admitted(page.feed, s.seenURIs), s.forceFreshFetch, randomize, cursorParam, pick);
  }

  /**
   * The initial fetch over an empty queue with no reset pending: the queue
   * becomes the admitted posts (shuffled when randomized) and the loading
   * indicator is on exactly when there is one.
   */
  lemma InitialFetchLoadsFirstPage(s: FetchState, outcomes: seq<FetchOutcome>, randomize: bool, pick: nat -> nat)
    requires DefaultRetries < |outcomes| && IsPicker(pick)
    requires s.posts == [] && !s.forceFreshFetch
    ensures var (n, t) := AfterFetch(s, true, None, s.posts, DefaultRetries, outcomes, randomize, pick);
            (outcomes[n - 1].Page? ==>
               var admitted := Admitted(outcomes[n - 1].feed, s.seenURIs);
               multiset(t.posts) == multiset(admitted) && (!randomize ==> t.posts == admitted) &&
               t.postLoading == (|t.posts| > 0)) &&
            (outcomes[n - 1].Failed? ==> t.posts == [] && t.cursor == s.cursor && !t.postLoading)
  {
    var n := AttemptsMade(outcomes, DefaultRetries);
    var t := AfterOutcome(s, outcomes[n - 1], None, s.posts, randomize, pick);
    assert AfterFetch(s, true, None, s.posts, DefaultRetries, outcomes, randomize, pick) == (n, t);
    if outcomes[n - 1].Page? {
      var admitted := Admitted(outcomes[n - 1].feed, s.seenURIs);
      assert t.posts == PostsAfterPage([], admitted, false, randomize, None, pick);
      PostsAfterPagePermutes([], admitted, false, randomize, None, pick);
    }
  }

  /**
   * A refill from the stored cursor appends the admitted posts to the queue
   * (the whole queue is shuffled when randomized); a failed refill keeps the
   * queue and the cursor.
   */
  lemma RefillAppends(s: FetchState, outcomes: seq<FetchOutcome>, randomize: bool, pick: nat -> nat)
    requires DefaultRetries < |outcomes| && IsPicker(pick)
    requires Truthy(s.cursor) && !s.forceFreshFetch
    ensures var (n, t) := AfterFetch(s, true, s.cursor, s.posts, DefaultRetries, outcomes, randomize, pick);
            (outcomes[n - 1].Page? ==>
               var admitted := Admitted(outcomes[n - 1].feed, s.seenURIs);
               multiset(t.posts) == multiset(s.posts + admitted) && (!randomize ==> t.posts == s.posts + admitted) &&
               t.postLoading == (if |t.posts| == 0 then false else s.postLoading)) &&
            (outcomes[n - 1].Failed? ==> t.posts == s.posts && t.cursor == s.cursor && !t.postLoading)
  {
    var n := AttemptsMade(outcomes, DefaultRetries);
    var t := AfterOutcome(s, outcomes[n - 1], s.cursor, s.posts, randomize, pick);
    assert AfterFetch(s, true, s.cursor, s.posts, DefaultRetries, outcomes, randomize, pick) == (n, t);
    if outcomes[n - 1].Page? {
      var admitted := Admitted(outcomes[n - 1].feed, s.seenURIs);
      assert t.posts == PostsAfterPage(s.posts, admitted, false, randomize, s.cursor, pick);
      PostsAfterPagePermutes(s.posts, admitted, false, randomize, s.cursor, pick);
    }
  }

  /**
   * The fetch of the forced-fresh reset, over the cleared state: the queue is
   * the whole page, duplicates included (shuffled when randomized), the ledger
   * is exactly its URIs, and the reset flag is cleared; a failure leaves the
   * queue empty with the flag still set.
   */
  lemma FreshFetchReplacesQueue(s: FetchState, rendered: seq<Post>, outcomes: seq<FetchOutcome>, randomize: bool,
                                pick: nat -> nat)
    requires DefaultRetries < |outcomes| && IsPicker(pick)
    requires s.posts == [] && s.seenURIs == {} && s.cursor == None && s.forceFreshFetch
    ensures var (n, t) := AfterFetch(s, true, None, rendered, DefaultRetries, outcomes, randomize, pick);
            (outcomes[n - 1].Page? ==>
               var fetched := NormalizeAll(outcomes[n - 1].feed);
               t.posts == (if randomize then FisherYates(fetched, pick) else fetched) &&
               t.seenURIs == Uris(fetched) && !t.forceFreshFetch &&
               t.cursor == CursorAfterPage(outcomes[n - 1].nextCursor)) &&
            (outcomes[n - 1].Failed? ==> t.posts == [] && t.seenURIs == {} && t.forceFreshFetch && !t.postLoading)
  {
    var n := AttemptsMade(outcomes, DefaultRetries);
    var t := AfterOutcome(s, outcomes[n - 1], None, rendered, randomize, pick);
    assert AfterFetch(s, true, None, rendered, DefaultRetries, outcomes, randomize, pick) == (n, t);
    if outcomes[n - 1].Page? {
      var fetched := NormalizeAll(outcomes[n - 1].feed);
      EmptyLedgerAdmitsAll(fetched);
      assert Merge(rendered, fetched, true, None) == fetched;
      assert t == AfterPage(s, None, rendered, fetched, outcomes[n - 1].nextCursor, randomize, pick);
    }
  }

  /** The part of the component state the delete handler reads and writes. */
  datatype Place = Place(posts: seq<Post>, currentIndex: nat, deletedCount: nat, postLoading: bool)

  /**
   * `handleDelete` with an agent, under the filter flags `f`: nothing but the
   * loading flag changes when there is no current post or the remote delete
   * fails; otherwise the post is spliced out and, unless the queue is now
   * empty, the index lands by the scan over the list after the splice and one
   * deletion is counted. The source scans the list from before the splice
   * instead; `IndexAfterDelete` models that scan.
   */
  function AfterDelete(p: Place, f: Filters, deleteSucceeds: bool): Place {
    if p.currentIndex >= |p.posts| || !deleteSucceeds then p.(postLoading := false)
    else
      var updated := RemoveAt(p.posts, p.currentIndex);
      if |updated| == 0 then p.(posts := updated, postLoading := false)
      else
        var next := IntendedIndexAfterDelete(updated, f, p.currentIndex);
        Place(updated, next, p.deletedCount + 1, next < |updated|)
  }

  /** The landing index of `handleDelete`: the new length when past it, otherwise the scan over `after`. */
  method LandAfterDelete(after: seq<Post>, f: Filters, i: nat) returns (nextIndex: nat)
    ensures nextIndex == IntendedIndexAfterDelete(after, f, i)
  {
    nextIndex := i;
    if nextIndex >= |after| {
      nextIndex := |after|;
    } else {
      nextIndex := Advance(after, f, nextIndex);
    }
  }

  /**
   * The steps of `handleDelete` after the agent check: delete the current post
   * remotely (`deleteSucceeds` is the remote call's outcome), then splice it
   * out. A missing current post throws when its URI is read, inside the try.
   * The landing index is scanned over the list after the splice; the source
   * scans the list from before it (`IndexAfterDelete`), which can land on a
   * post the filters hide.
   */
  method DeleteStep(p: Place, f: Filters, deleteSucceeds: bool) returns (r: Place)
    ensures r == AfterDelete(p, f, deleteSucceeds)
  {
    r := p.(postLoading := true);
    if p.currentIndex >= |p.posts| || !deleteSucceeds {
      return r.(postLoading := false);
    }
    var updatedPosts := RemoveAt(p.posts, p.currentIndex);
    r := r.(posts := updatedPosts);
    if |updatedPosts| == 0 {
      return r.(postLoading := false);
    }
    var nextIndex := LandAfterDelete(updatedPosts, f, p.currentIndex);
    if nextIndex >= |updatedPosts| {
      r := r.(postLoading := false);
    }
    r := r.(currentIndex := nextIndex, deletedCount := p.deletedCount + 1);
  }

  /** A delete only removes posts, so a queue covered by the ledger stays covered. */
  lemma DeleteKeepsCover(p: Place, f: Filters, deleteSucceeds: bool, seen: set<string>)
    requires Covered(p.posts, seen)
    ensures Covered(AfterDelete(p, f, deleteSucceeds).posts, seen)
  {
    if p.currentIndex < |p.posts| && deleteSucceeds {
      var updated := RemoveAt(p.posts, p.currentIndex);
      forall q | q in updated ensures q.uri in seen {
        assert q in multiset(p.posts);
      }
    }
  }

  /** With no current post, or when the remote delete fails, the queue, index and counter stay and loading stops. */
  lemma DeleteFailureKeepsQueue(p: Place, f: Filters, deleteSucceeds: bool)
    requires p.currentIndex >= |p.posts| || !deleteSucceeds
    ensures var r := AfterDelete(p, f, deleteSucceeds);
            r.posts == p.posts && r.currentIndex == p.currentIndex && r.deletedCount == p.deletedCount &&
            !r.postLoading
  {
  }

  /**
   * A successful delete removes exactly the current post, every other post
   * staying in order.
   */
  lemma DeleteRemovesCurrent(p: Place, f: Filters)
    requires p.currentIndex < |p.posts|
    ensures var r := AfterDelete(p, f, true);
            multiset(r.posts) + multiset{p.posts[p.currentIndex]} == multiset(p.posts) &&
            |r.posts| == |p.posts| - 1 &&
            (forall k :: 0 <= k < p.currentIndex ==> r.posts[k] == p.posts[k]) &&
            (forall k :: p.currentIndex <= k < |r.posts| ==> r.posts[k] == p.posts[k + 1])
  {
    assert AfterDelete(p, f, true).posts == RemoveAt(p.posts, p.currentIndex);
  }

  /**
   * Deleting the only post empties the queue without counting the deletion:
   * the handler returns before the counter is advanced.
   */
  lemma DeleteOnlyPostIsNotCounted(p: Place, f: Filters)
    requires |p.posts| == 1 && p.currentIndex == 0
    ensures var r := AfterDelete(p, f, true);
            r.posts == [] && r.deletedCount == p.deletedCount && r.currentIndex == 0 && !r.postLoading
  {
  }

  /**
   * A successful delete that leaves posts counts one deletion and lands at or
   * after the deleted post's index on the first post the filters show (or at
   * the end, in particular when the last post was deleted), skipping only
   * hidden posts; the loading indicator is on exactly when a post is current.
   */
  lemma DeleteLandsOnShownPost(p: Place, f: Filters)
    requires p.currentIndex < |p.posts| && |p.posts| > 1
    ensures var r := AfterDelete(p, f, true);
            r.deletedCount == p.deletedCount + 1 &&
            p.currentIndex <= r.currentIndex <= |r.posts| &&
            (p.currentIndex == |p.posts| - 1 ==> r.currentIndex == |r.posts|) &&
            (r.currentIndex < |r.posts| ==> !Excluded(r.posts[r.currentIndex], f)) &&
            (forall k :: p.currentIndex <= k < r.currentIndex ==> Excluded(r.posts[k], f)) &&
            r.postLoading == (r.currentIndex < |r.posts|)
  {
  }

  class ReviewQueue {
    var posts: seq<Post>
    var currentIndex: nat
    var cursor: Option<string>
    var seenURIs: set<string>
    var keptCount: nat
    var deletedCount: nat
    var filterReplies: bool
    var filterReposts: bool
    var filterZeroLikes: bool
    var randomizeOrder: bool
    var forceFreshFetch: bool
    var postLoading: bool
    var errorMessage: string
    // The session: `authenticated`, an agent, and an account DID.
    var authenticated: bool
    var hasAgent: bool
    var hasAccount: bool

    /** The fields a fetch reads and writes, as one value. */
    function State(): FetchState
      reads this
    {
      FetchState(posts, seenURIs, cursor, forceFreshFetch, postLoading, errorMessage)
    }

    /** The fields the delete handler reads and writes, as one value. */
    function CurrentPlace(): Place
      reads this
    {
      Place(posts, currentIndex, deletedCount, postLoading)
    }

    ghost predicate Valid()
      reads this
    {
      ValidState(State())
    }

    function CurrentFilters(): Filters
      reads this
    {
      Filters(filterReplies, filterReposts, filterZeroLikes)
    }

    predicate HasSession()
      reads this
    {
      hasAgent && hasAccount
    }

    /** The guard of the initial-fetch effect. */
    predicate InitialFetchDue()
      reads this
    {
      authenticated && hasAgent && hasAccount && |posts| == 0 && !forceFreshFetch
    }

    /** The low-water-mark refill condition of the position effect. */
    predicate RefillDue()
      reads this
    {
      |posts| - currentIndex - 1 < LowWaterMark && Truthy(cursor) && !forceFreshFetch
    }

    /** The "all posts reviewed" screen condition. */
    predicate AllReviewed()
      reads this
    {
      currentIndex >= |posts| && !Truthy(cursor) && !forceFreshFetch
    }

    /** The component's initial state, once the agent has been created on mount. */
    constructor ()
      ensures Valid()
      ensures posts == [] && currentIndex == 0 && cursor == None && seenURIs == {}
      ensures keptCount == 0 && deletedCount == 0 && errorMessage == "" && !postLoading
      ensures CurrentFilters() == DefaultFilters && !randomizeOrder && !forceFreshFetch
      ensures !authenticated && hasAgent && !hasAccount
    {
      posts, currentIndex, cursor, seenURIs := [], 0, None, {};
      keptCount, deletedCount, errorMessage, postLoading := 0, 0, "", false;
      filterReplies, filterReposts, filterZeroLikes := true, true, false;
      randomizeOrder, forceFreshFetch := false, false;
      authenticated, hasAgent, hasAccount := false, true, false;
    }

    /** A login or a session resume succeeded: the component is authenticated and knows the account. */
    method SignedIn()
      modifies this`authenticated, this`hasAccount
      ensures hasAgent ==> authenticated && hasAccount
      ensures !hasAgent ==> authenticated == old(authenticated) && hasAccount == old(hasAccount)
    {
      if hasAgent {
        authenticated, hasAccount := true, true;
      }
    }

    /**
     * The success path of one fetch attempt, from the normalised page
     * `fetched` on: dedup against the ledger, mark the admitted URIs seen,
     * merge, shuffle when randomized, and update the cursor and the flags.
     */
    method Ingest(cursorParam: Option<string>, rendered: seq<Post>, fetched: seq<Post>, nextCursor: Option<string>,
                  pick: nat -> nat)
      requires Valid() && IsPicker(pick)
      requires forceFreshFetch || Covered(rendered, seenURIs)
      modifies this`posts, this`seenURIs, this`cursor, this`forceFreshFetch, this`postLoading
      ensures State() == AfterPage(old(State()), cursorParam, rendered, fetched, nextCursor, randomizeOrder, pick)
    {
      var unique := Unseen(fetched, seenURIs);
      MarkSeen(unique);
      var newPosts := BuildPage(rendered, unique, forceFreshFetch, randomizeOrder, cursorParam, pick);
      var loading := postLoading;
      if |newPosts| > 0 && |rendered| == 0 && !Truthy(cursorParam) {
        loading := true;
      } else if |newPosts| == 0 {
        loading := false;
      }
      Publish(newPosts, CursorAfterPage(nextCursor), loading);
    }

    /** Marks the URI of every admitted post as seen, one post at a time. */
    method MarkSeen(unique: seq<Post>)
      modifies this`seenURIs
      ensures seenURIs == old(seenURIs) + Uris(unique)
    {
      var i := 0;
      while i < |unique|
        invariant 0 <= i <= |unique|
        invariant seenURIs == old(seenURIs) + Uris(unique[..i])
      {
        UrisAppend(unique[..i], unique[i]);
        assert unique[..i + 1] == unique[..i] + [unique[i]];
        seenURIs := seenURIs + {unique[i].uri};
        i := i + 1;
      }
      assert unique[..|unique|] == unique;
    }

    /** The state updates of a successful fetch: the queue, the cursor, the reset flag and the loading flag. */
    method Publish(newPosts: seq<Post>, nextCursor: Option<string>, loading: bool)
      modifies this`posts, this`cursor, this`forceFreshFetch, this`postLoading
      ensures posts == newPosts && cursor == nextCursor && !forceFreshFetch && postLoading == loading
    {
      posts := newPosts;
      cursor := nextCursor;
      if forceFreshFetch {
        forceFreshFetch := false;
      }
      postLoading := loading;
    }

    /** The last retry failed: show the error and stop the loading indicator. */
    method ReportFailure()
      modifies this`errorMessage, this`postLoading
      ensures errorMessage == FetchFailedMessage && !postLoading
    {
      errorMessage := FetchFailedMessage;
      postLoading := false;
    }

    /**
     * `fetchPosts(cursorParam, retries)`: without a session nothing happens;
     * otherwise attempts are made until one returns a page or the retries run
     * out. `rendered` is the `posts` array of the render whose closure runs the
     * fetch; every retry reuses that closure.
     */
    method FetchPosts(cursorParam: Option<string>, rendered: seq<Post>, retries: nat, outcomes: seq<FetchOutcome>,
                      pick: nat -> nat) returns (attempts: nat)
      requires Valid() && IsPicker(pick)
      requires forceFreshFetch || Covered(rendered, seenURIs)
      requires |outcomes| > retries
      modifies this`posts, this`seenURIs, this`cursor, this`forceFreshFetch, this`postLoading, this`errorMessage
      ensures Valid()
      ensures (attempts, State()) ==
              AfterFetch(old(State()), HasSession(), cursorParam, rendered, retries, outcomes, randomizeOrder, pick)
    {
      if !(hasAgent && hasAccount) {
        return 0;
      }
      attempts := CountAttempts(outcomes, retries);
      Settle(outcomes[attempts - 1], cursorParam, rendered, pick);
    }

    /** The last attempt of a fetch: the catch branch's error report, or the page's success path. */
    method Settle(outcome: FetchOutcome, cursorParam: Option<string>, rendered: seq<Post>, pick: nat -> nat)
      requires Valid() && IsPicker(pick)
      requires forceFreshFetch || Covered(rendered, seenURIs)
      modifies this`posts, this`seenURIs, this`cursor, this`forceFreshFetch, this`postLoading, this`errorMessage
      ensures Valid()
      ensures State() == AfterOutcome(old(State()), outcome, cursorParam, rendered, randomizeOrder, pick)
    {
      OutcomeKeepsValid(State(), outcome, cursorParam, rendered, randomizeOrder, pick);
      match outcome
      case Failed =>
        ReportFailure();
      case Page(feed, nextCursor) =>
        Ingest(cursorParam, rendered, NormalizeAll(feed), nextCursor, pick);
    }

    /** The initial-fetch effect: the first page, when signed in with an empty queue and no forced reset. */
    method InitialFetch(outcomes: seq<FetchOutcome>, pick: nat -> nat) returns (attempts: nat)
      requires Valid() && IsPicker(pick)
      requires |outcomes| > DefaultRetries
      modifies this`posts, this`seenURIs, this`cursor, this`forceFreshFetch, this`postLoading, this`errorMessage
      ensures Valid()
      ensures !old(InitialFetchDue()) ==> attempts == 0 && State() == old(State())
      ensures old(InitialFetchDue()) ==>
                (attempts, State()) ==
                AfterFetch(old(State()), true, None, old(posts), DefaultRetries, outcomes, randomizeOrder, pick)
    {
      attempts := 0;
      if authenticated && hasAgent && hasAccount && |posts| == 0 && !forceFreshFetch {
        attempts := FetchPosts(None, posts, DefaultRetries, outcomes, pick);
      }
    }

    /** The position effect's first step: a current post with a URI switches the loading indicator on. */
    method ShowCurrent()
      modifies this`postLoading
      ensures postLoading == (old(postLoading) || (currentIndex < |posts| && posts[currentIndex].uri != ""))
    {
      if currentIndex < |posts| && posts[currentIndex].uri != "" {
        postLoading := true;
      }
    }

    /**
     * The effect that runs when the index, the queue or the cursor changes:
     * a current post switches the loading indicator on, and a refill is
     * fetched from the cursor when the low-water mark is reached.
     */
    method OnQueueChange(outcomes: seq<FetchOutcome>, pick: nat -> nat) returns (attempts: nat)
      requires Valid() && IsPicker(pick)
      requires |outcomes| > DefaultRetries
      modifies this`posts, this`seenURIs, this`cursor, this`forceFreshFetch, this`postLoading, this`errorMessage
      ensures Valid()
      ensures var shown := old(State()).(postLoading := old(postLoading) || old(currentIndex < |posts| &&
                                                                           posts[currentIndex].uri != ""));
              (!old(RefillDue()) ==> attempts == 0 && State() == shown) &&
              (old(RefillDue()) ==>
                 (attempts, State()) ==
                 AfterFetch(shown, HasSession(), old(cursor), old(posts), DefaultRetries, outcomes, randomizeOrder, pick))
    {
      ShowCurrent();
      attempts := 0;
      if |posts| - currentIndex - 1 < LowWaterMark && Truthy(cursor) && !forceFreshFetch {
        attempts := FetchPosts(cursor, posts, DefaultRetries, outcomes, pick);
      }
    }

    /** The forced-fresh effect's clearing step: empty queue, no cursor, index 0, empty ledger. */
    method ClearForFreshFetch()
      modifies this`posts, this`cursor, this`currentIndex, this`seenURIs
      ensures posts == [] && cursor == None && currentIndex == 0 && seenURIs == {}
    {
      posts, cursor, currentIndex := [], None, 0;
      seenURIs := {};
    }

    /**
     * The forced-fresh effect: with a reset pending and a session, clear the
     * queue, the cursor, the index and the ledger, then fetch the first page.
     * The fetch runs in the closure of the render before the clearing, so it
     * sees the old queue as `rendered`.
     */
    method ForceFreshReset(outcomes: seq<FetchOutcome>, pick: nat -> nat) returns (attempts: nat)
      requires Valid() && IsPicker(pick)
      requires |outcomes| > DefaultRetries
      modifies this`posts, this`seenURIs, this`cursor, this`currentIndex, this`forceFreshFetch, this`postLoading,
               this`errorMessage
      ensures Valid()
      ensures !old(forceFreshFetch && authenticated && HasSession()) ==>
                attempts == 0 && State() == old(State()) && currentIndex == old(currentIndex)
      ensures old(forceFreshFetch && authenticated && HasSession()) ==>
                currentIndex == 0 &&
                (attempts, State()) ==
                AfterFetch(old(State()).(posts := [], seenURIs := {}, cursor := None), true, None, old(posts),
                           DefaultRetries, outcomes, randomizeOrder, pick)
    {
      attempts := 0;
      if forceFreshFetch && authenticated && hasAgent && hasAccount {
        var rendered := posts;
        ClearForFreshFetch();
        attempts := FetchPosts(None, rendered, DefaultRetries, outcomes, pick);
      }
    }

    /** `handleKeep`: move to the next post the filters show and count one kept post. */
    method Keep()
      requires Valid()
      modifies this`postLoading, this`currentIndex, this`keptCount
      ensures Valid()
      ensures currentIndex == NextValid(posts, CurrentFilters(), old(currentIndex) + 1)
      ensures keptCount == old(keptCount) + 1
      ensures postLoading == (currentIndex < |posts|)
      ensures old(AllReviewed()) ==> AllReviewed()
    {
      postLoading := true;
      var nextIndex := Advance(posts, CurrentFilters(), currentIndex + 1);
      if nextIndex >= |posts| {
        postLoading := false;
      }
      currentIndex := nextIndex;
      keptCount := keptCount + 1;
    }

    /**
     * `handleDelete`: the steps run on a snapshot of the handler's state and
     * the new state is stored at once, as the component's setters take effect
     * together at the next render. The ledger keeps the deleted URI.
     */
    method Delete(deleteSucceeds: bool)
      requires Valid()
      modifies this`posts, this`postLoading, this`currentIndex, this`deletedCount
      ensures Valid()
      ensures !hasAgent ==> CurrentPlace() == old(CurrentPlace())
      ensures hasAgent ==> CurrentPlace() == AfterDelete(old(CurrentPlace()), CurrentFilters(), deleteSucceeds)
    {
      if !hasAgent {
        return;
      }
      DeleteKeepsCover(CurrentPlace(), CurrentFilters(), deleteSucceeds, seenURIs);
      var r := DeleteStep(CurrentPlace(), CurrentFilters(), deleteSucceeds);
      posts, currentIndex, deletedCount, postLoading := r.posts, r.currentIndex, r.deletedCount, r.postLoading;
    }

    /**
     * `handleFilterRepliesChange`: set the flag; when replies become hidden
     * and the current post is a reply, scan on from the next index with the
     * new flags. The source's scan reads the flags from before the change and
     * can stop on another reply.
     */
    method HandleFilterRepliesChange(checked: bool)
      requires Valid()
      modifies this`filterReplies, this`currentIndex, this`postLoading
      ensures Valid() && filterReplies == checked
      ensures !checked && old(currentIndex) < |posts| && IsReplyPost(posts[old(currentIndex)]) ==>
                currentIndex == IntendedIndexAfterToggle(posts, CurrentFilters(), old(currentIndex)) &&
                (currentIndex < |posts| ==> !Excluded(posts[currentIndex], CurrentFilters())) &&
                postLoading == (old(postLoading) && currentIndex < |posts|)
      ensures !(!checked && old(currentIndex) < |posts| && IsReplyPost(posts[old(currentIndex)])) ==>
                currentIndex == old(currentIndex) && postLoading == old(postLoading)
    {
      filterReplies := checked;
      if !checked && currentIndex < |posts| && IsReplyPost(posts[currentIndex]) {
        var nextIndex := Advance(posts, CurrentFilters(), currentIndex + 1);
        if nextIndex >= |posts| {
          postLoading := false;
        }
        currentIndex := nextIndex;
      }
    }

    /** `handleFilterRepostsChange`: as for replies, for reposts. */
    method HandleFilterRepostsChange(checked: bool)
      requires Valid()
      modifies this`filterReposts, this`currentIndex, this`postLoading
      ensures Valid() && filterReposts == checked
      ensures !checked && old(currentIndex) < |posts| && IsRepostPost(posts[old(currentIndex)]) ==>
                currentIndex == IntendedIndexAfterToggle(posts, CurrentFilters(), old(currentIndex)) &&
                (currentIndex < |posts| ==> !Excluded(posts[currentIndex], CurrentFilters())) &&
                postLoading == (old(postLoading) && currentIndex < |posts|)
      ensures !(!checked && old(currentIndex) < |posts| && IsRepostPost(posts[old(currentIndex)])) ==>
                currentIndex == old(currentIndex) && postLoading == old(postLoading)
    {
      filterReposts := checked;
      if !checked && currentIndex < |posts| && IsRepostPost(posts[currentIndex]) {
        var nextIndex := Advance(posts, CurrentFilters(), currentIndex + 1);
        if nextIndex >= |posts| {
          postLoading := false;
        }
        currentIndex := nextIndex;
      }
    }

    /**
     * `handleFilterZeroLikesChange`: set the flag; when it is switched on and
     * the current post has likes, scan on from the next index with the new
     * flags (the source's scan reads the flags from before the change).
     */
    method HandleFilterZeroLikesChange(checked: bool)
      requires Valid()
      modifies this`filterZeroLikes, this`currentIndex, this`postLoading
      ensures Valid() && filterZeroLikes == checked
      ensures checked && old(currentIndex) < |posts| && !HasZeroLikes(posts[old(currentIndex)]) ==>
                currentIndex == IntendedIndexAfterToggle(posts, CurrentFilters(), old(currentIndex)) &&
                (currentIndex < |posts| ==> !Excluded(posts[currentIndex], CurrentFilters())) &&
                postLoading == (old(postLoading) && currentIndex < |posts|)
      ensures !(checked && old(currentIndex) < |posts| && !HasZeroLikes(posts[old(currentIndex)])) ==>
                currentIndex == old(currentIndex) && postLoading == old(postLoading)
    {
      filterZeroLikes := checked;
      if checked && currentIndex < |posts| && !HasZeroLikes(posts[currentIndex]) {
        var nextIndex := Advance(posts, CurrentFilters(), currentIndex + 1);
        if nextIndex >= |posts| {
          postLoading := false;
        }
        currentIndex := nextIndex;
      }
    }

    /**
     * `handleRandomizeChange`: switching on shuffles a non-empty queue and
     * returns to its start; switching off requests a forced fresh fetch.
     */
    method HandleRandomizeChange(checked: bool, pick: nat -> nat)
      requires Valid() && IsPicker(pick)
      modifies this`randomizeOrder, this`posts, this`currentIndex, this`forceFreshFetch
      ensures Valid() && randomizeOrder == checked
      ensures checked && |old(posts)| > 0 ==>
                posts == FisherYates(old(posts), pick) && multiset(posts) == multiset(old(posts)) &&
                currentIndex == 0 && forceFreshFetch == old(forceFreshFetch)
      ensures checked && |old(posts)| == 0 ==>
                posts == old(posts) && currentIndex == old(currentIndex) && forceFreshFetch == old(forceFreshFetch)
      ensures !checked ==> forceFreshFetch && posts == old(posts) && currentIndex == old(currentIndex)
    {
      if checked {
        randomizeOrder := true;
        if |posts| > 0 {
          var shuffled := ShuffleArray(posts, pick);
          forall p | p in shuffled ensures p.uri in seenURIs {
            assert p in multiset(posts);
          }
          posts := shuffled;
          currentIndex := 0;
        }
      } else {
        randomizeOrder := false;
        forceFreshFetch := true;
      }
    }

    /** `handleLogout`: end the session and return every piece of queue state to its default. */
    method HandleLogout()
      modifies this
      ensures Valid()
      ensures !authenticated && !hasAgent && !hasAccount
      ensures posts == [] && currentIndex == 0 && cursor == None && seenURIs == {}
      ensures keptCount == 0 && deletedCount == 0 && errorMessage == ""
      ensures CurrentFilters() == DefaultFilters && !randomizeOrder && !forceFreshFetch
      ensures postLoading == old(postLoading)
    {
      EndSession();
      ClearReview();
      ResetSettings();
    }

    /** The session part of a logout: no authentication, no agent, no account. */
    method EndSession()
      modifies this`authenticated, this`hasAgent, this`hasAccount
      ensures !authenticated && !hasAgent && !hasAccount
    {
      authenticated, hasAgent, hasAccount := false, false, false;
    }

    /** The review part of a logout: queue, position, counters, error, cursor and ledger back to empty. */
    method ClearReview()
      modifies this`posts, this`currentIndex, this`cursor, this`seenURIs, this`keptCount, this`deletedCount,
               this`errorMessage
      ensures posts == [] && currentIndex == 0 && cursor == None && seenURIs == {}
      ensures keptCount == 0 && deletedCount == 0 && errorMessage == ""
    {
      posts, currentIndex := [], 0;
      keptCount, deletedCount := 0, 0;
      errorMessage, cursor := "", None;
      seenURIs := {};
    }

    /** The settings part of a logout: default filters, no randomizing, no pending reset. */
    method ResetSettings()
      modifies this`filterReplies, this`filterReposts, this`filterZeroLikes, this`randomizeOrder, this`forceFreshFetch
      ensures CurrentFilters() == DefaultFilters && !randomizeOrder && !forceFreshFetch
    {
      filterReplies, filterReposts, filterZeroLikes := true, true, false;
      randomizeOrder, forceFreshFetch := false, false;
    }

    /** The embed's loaded or error event: the loading indicator goes off. */
    method EmbedSettled()
      modifies this`postLoading
      ensures !postLoading
    {
      postLoading := false;
    }
  }

  /**
   * The "all posts reviewed" screen is quiescent: the position effect has no
   * refill to start.
   */
  lemma ReviewedScreenIsQuiescent(q: ReviewQueue)
    requires q.AllReviewed()
    ensures !q.RefillDue()
  {
  }
}
