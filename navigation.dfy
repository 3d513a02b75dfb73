/**
 * The skip scan every navigation step funnels through: from a start index,
 * move forward past every post the active filters hide.
 */
module Navigation {
  import opened Posts

  /**
   * The index the skip scan stops at: the smallest index at or after `start`
   * that is past the end or holds a post no active filter hides.
   */
  function NextValid(posts: seq<Post>, f: Filters, start: nat): (idx: nat)
    ensures start <= idx
    ensures idx <= |posts| || idx == start
    ensures idx < |posts| ==> !Excluded(posts[idx], f)
    ensures forall k :: start <= k < idx ==> k < |posts| && Excluded(posts[k], f)
    decreases |posts| - start
  {
    if start < |posts| && Excluded(posts[start], f) then NextValid(posts, f, start + 1) else start
  }

  /** `advanceToNextValidPost`: the while loop that increments the index past hidden posts. */
  method Advance(posts: seq<Post>, f: Filters, startIndex: nat) returns (idx: nat)
    ensures idx == NextValid(posts, f, startIndex)
  {
    idx := startIndex;
    while idx < |posts| && Excluded(posts[idx], f)
      invariant startIndex <= idx
      invariant NextValid(posts, f, idx) == NextValid(posts, f, startIndex)
      decreases |posts| - idx
    {
      idx := idx + 1;
    }
  }

  /** Starting past the end, the scan does not move. */
  lemma NextValidPastEnd(posts: seq<Post>, f: Filters, start: nat)
    requires start >= |posts|
    ensures NextValid(posts, f, start) == start
  {
  }

  /** The scan is idempotent: scanning again from where it stopped stays put. */
  lemma NextValidIdempotent(posts: seq<Post>, f: Filters, start: nat)
    ensures NextValid(posts, f, NextValid(posts, f, start)) == NextValid(posts, f, start)
  {
  }

  /** Hiding more never makes the scan stop earlier: a stricter filter set reaches at least as far. */
  lemma {:induction false} StricterFiltersScanFurther(posts: seq<Post>, f: Filters, g: Filters, start: nat)
    requires forall p: Post :: Excluded(p, f) ==> Excluded(p, g)
    ensures NextValid(posts, f, start) <= NextValid(posts, g, start)
    decreases |posts| - start
  {
    if start < |posts| && Excluded(posts[start], f) {
      StricterFiltersScanFurther(posts, f, g, start + 1);
    }
  }

  /**
   * Where the delete handler lands once the splice has been done: the new length
   * when the deleted post was the last one, otherwise the scan from the same
   * index over `scanned`, the list the scan reads. When `scanned` is the list
   * from before the splice and the deleted post was shown, the scan stops at
   * once, so the post that moved into the deleted slot is never tested.
   */
  function IndexAfterDelete(scanned: seq<Post>, f: Filters, i: nat, remaining: nat): (r: nat)
    ensures i >= remaining ==> r == remaining
    ensures i < remaining ==> i <= r
    ensures i < remaining && r < |scanned| ==> !Excluded(scanned[r], f)
    ensures i < remaining && i < |scanned| && !Excluded(scanned[i], f) ==> r == i
  {
    if i >= remaining then remaining else NextValid(scanned, f, i)
  }

  /**
   * The delete handler as written scans the list from before the splice, so the
   * post that moved into the deleted post's slot is never tested: here the
   * visible post `a` at index 0 is deleted, the scan stops at 0 on `a`, and the
   * queue shows the reply `b` although replies are hidden.
   */
  lemma StaleDeleteScanShowsHiddenPost()
    ensures var a := Post("at://a", "", "", NormalType, 0, 0, 0, "");
            var b := Post("at://b", "", "", "Reply to @x", 0, 0, 0, "");
            var f := Filters(false, true, false);
            var before := [a, b];
            var after := [b];
            IndexAfterDelete(before, f, 0, |after|) == 0 && Excluded(after[0], f)
  {
    var a := Post("at://a", "", "", NormalType, 0, 0, 0, "");
    var b := Post("at://b", "", "", "Reply to @x", 0, 0, 0, "");
    assert a.kind[0] != ReplyPrefix[0];
    assert !Excluded(a, Filters(false, true, false));
    assert b.kind[..|ReplyPrefix|] == ReplyPrefix;
  }

  /**
   * The intended delete landing point: scanning the list after the splice puts
   * the queue on a post no active filter hides, or at the end.
   */
  function IntendedIndexAfterDelete(after: seq<Post>, f: Filters, i: nat): (r: nat)
    ensures r <= |after| || r == i
    ensures r < |after| ==> !Excluded(after[r], f)
    ensures forall k :: i <= k < r ==> k < |after| && Excluded(after[k], f)
  {
    IndexAfterDelete(after, f, i, |after|)
  }

  /**
   * A filter handler as written scans with the flags from before the toggle:
   * hiding replies while the first of two replies is shown moves the queue to
   * the second reply, which the new flags hide.
   */
  lemma StaleToggleScanShowsHiddenPost()
    ensures var r1 := Post("at://r1", "", "", "Reply to @x", 0, 0, 0, "");
            var r2 := Post("at://r2", "", "", "Reply to @y", 0, 0, 0, "");
            var posts := [r1, r2];
            var toggled := DefaultFilters.(filterReplies := false);
            NextValid(posts, DefaultFilters, 1) == 1 && Excluded(posts[1], toggled)
  {
    var r2 := Post("at://r2", "", "", "Reply to @y", 0, 0, 0, "");
    assert r2.kind[..|ReplyPrefix|] == ReplyPrefix;
  }

  /**
   * The intended landing point of a filter handler that hides the current
   * post: the scan from the next index with the flags after the toggle, which
   * moves strictly forward and stops on a post those flags show.
   */
  function IntendedIndexAfterToggle(posts: seq<Post>, toggled: Filters, current: nat): (r: nat)
    ensures current < r
    ensures r < |posts| ==> !Excluded(posts[r], toggled)
    ensures forall k :: current < k < r ==> k < |posts| && Excluded(posts[k], toggled)
  {
    NextValid(posts, toggled, current + 1)
  }
}
