/**
 * The seen-URI ledger: which posts of a page are admitted, the URIs that are
 * marked as seen afterwards, and how the admitted posts join the queue.
 */
module Dedup {
  import opened Posts

  /** The URIs of a list of posts. */
  function Uris(ps: seq<Post>): set<string> {
    set p | p in ps :: p.uri
  }

  lemma UrisAppend(ps: seq<Post>, p: Post)
    ensures Uris(ps + [p]) == Uris(ps) + {p.uri}
  {
    assert forall q :: q in ps + [p] <==> q in ps || q == p;
  }

  /**
   * The page filter: keep the posts whose URI is not in `seen`, in received
   * order. `seen` is the ledger from before the page, so two copies of one URI
   * on the same page are both kept.
   */
  function Unseen(fetched: seq<Post>, seen: set<string>): (r: seq<Post>)
    ensures |r| <= |fetched|
  {
    if fetched == [] then []
    else (if fetched[0].uri in seen then [] else [fetched[0]]) + Unseen(fetched[1..], seen)
  }

  /** A post is admitted exactly when it is on the page and its URI was not seen. */
  lemma {:induction false} UnseenMembership(fetched: seq<Post>, seen: set<string>, p: Post)
    ensures p in Unseen(fetched, seen) <==> p in fetched && p.uri !in seen
  {
    if fetched != [] {
      UnseenMembership(fetched[1..], seen, p);
      assert fetched == [fetched[0]] + fetched[1..];
    }
  }

  /** The filter keeps received order: filtering a concatenation filters each part. */
  lemma {:induction false} UnseenConcat(a: seq<Post>, b: seq<Post>, seen: set<string>)
    ensures Unseen(a + b, seen) == Unseen(a, seen) + Unseen(b, seen)
  {
    if a == [] {
      assert a + b == b;
    } else {
      var head := if a[0].uri in seen then [] else [a[0]];
      assert (a + b)[0] == a[0] && (a + b)[1..] == a[1..] + b;
      UnseenConcat(a[1..], b, seen);
      calc {
        Unseen(a + b, seen);
        head + Unseen(a[1..] + b, seen);
        head + (Unseen(a[1..], seen) + Unseen(b, seen));
        (head + Unseen(a[1..], seen)) + Unseen(b, seen);
      }
    }
  }

  /** Nothing is dropped from a page none of whose URIs was seen. */
  lemma {:induction false} UnseenKeepsFreshPage(fetched: seq<Post>, seen: set<string>)
    requires forall p :: p in fetched ==> p.uri !in seen
    ensures Unseen(fetched, seen) == fetched
  {
    if fetched != [] {
      UnseenKeepsFreshPage(fetched[1..], seen);
    }
  }

  /** Against an empty ledger the whole page is admitted, duplicates included. */
  lemma EmptyLedgerAdmitsAll(fetched: seq<Post>)
    ensures Unseen(fetched, {}) == fetched
  {
    UnseenKeepsFreshPage(fetched, {});
  }

  /** Two copies of one unseen URI on the same page both survive the filter. */
  lemma DuplicatesWithinPageSurvive(p: Post, seen: set<string>)
    requires p.uri !in seen
    ensures Unseen([p, p], seen) == [p, p]
  {
    UnseenKeepsFreshPage([p, p], seen);
  }

  /** A URI in the ledger is never admitted again, whatever page carries it. */
  lemma SeenNeverReadmitted(fetched: seq<Post>, seen: set<string>, uri: string)
    requires uri in seen
    ensures forall p :: p in Unseen(fetched, seen) ==> p.uri != uri
  {
    forall p | p in Unseen(fetched, seen) ensures p.uri != uri {
      UnseenMembership(fetched, seen, p);
    }
  }

  /** No URI occurs twice. */
  ghost predicate DistinctUris(ps: seq<Post>) {
    forall i, j :: 0 <= i < j < |ps| ==> ps[i].uri != ps[j].uri
  }

  lemma {:induction false} UnseenKeepsDistinct(fetched: seq<Post>, seen: set<string>)
    requires DistinctUris(fetched)
    ensures DistinctUris(Unseen(fetched, seen))
  {
    if fetched != [] {
      var rest := Unseen(fetched[1..], seen);
      UnseenKeepsDistinct(fetched[1..], seen);
      if fetched[0].uri !in seen {
        forall p | p in rest ensures p.uri != fetched[0].uri {
          UnseenMembership(fetched[1..], seen, p);
          var k :| 0 < k < |fetched| && fetched[k] == p;
        }
      }
    }
  }

  /**
   * The merge rule of a fetch: the admitted posts alone when a fresh fetch is
   * forced or when this is a first page (no cursor argument) over an empty
   * list; otherwise the rendered list followed by the admitted posts.
   */
  function Merge(rendered: seq<Post>, admitted: seq<Post>, forceFresh: bool, cursorParam: Option<string>): (r: seq<Post>)
    ensures forceFresh ==> r == admitted
    ensures !forceFresh ==> r == rendered + admitted
  {
    if forceFresh || (!Truthy(cursorParam) && |rendered| == 0) then admitted else rendered + admitted
  }

  /**
   * Dedup across pages: if the queue has distinct URIs that are all in the
   * ledger and the page itself has no repeated URI, the merged queue has
   * distinct URIs too.
   */
  lemma {:induction false} MergeKeepsDistinct(rendered: seq<Post>, fetched: seq<Post>, seen: set<string>,
                                              forceFresh: bool, cursorParam: Option<string>)
    requires DistinctUris(rendered) && Uris(rendered) <= seen
    requires DistinctUris(fetched)
    ensures DistinctUris(Merge(rendered, Unseen(fetched, seen), forceFresh, cursorParam))
  {
    var admitted := Unseen(fetched, seen);
    UnseenKeepsDistinct(fetched, seen);
    var m := rendered + admitted;
    forall i, j | 0 <= i < j < |m| ensures m[i].uri != m[j].uri {
      if j >= |rendered| && i < |rendered| {
        assert m[i] in rendered && m[i].uri in Uris(rendered);
        assert m[j] == admitted[j - |rendered|] && m[j] in admitted;
        UnseenMembership(fetched, seen, m[j]);
      } else if j >= |rendered| {
        assert m[i] == admitted[i - |rendered|] && m[j] == admitted[j - |rendered|];
      }
    }
  }
}
