/**
 * `shuffleArray`: a Fisher-Yates pass over a copy of the list. The random
 * choice `Math.floor(Math.random() * (i + 1))` becomes an oracle `pick` that
 * returns, for each index `i`, some index in `[0, i]`.
 */
module Shuffle {

  /** What the source's random draw promises: for index i, a value in [0, i]. */
  ghost predicate IsPicker(pick: nat -> nat) {
    forall i :: pick(i) <= i
  }

  /** `s` with the elements at `i` and `j` exchanged. */
  function Swap<T>(s: seq<T>, i: nat, j: nat): (r: seq<T>)
    requires i < |s| && j < |s|
    ensures |r| == |s| && r[i] == s[j] && r[j] == s[i]
    ensures forall k :: 0 <= k < |s| && k != i && k != j ==> r[k] == s[k]
  {
    s[i := s[j]][j := s[i]]
  }

  /** The passes for indices `top - 1` down to 1, each swapping index i with index pick(i). */
  function ShuffleBelow<T>(s: seq<T>, pick: nat -> nat, top: nat): (r: seq<T>)
    requires top <= |s|
    requires IsPicker(pick)
    decreases top
  {
    if top <= 1 then s else ShuffleBelow(Swap(s, top - 1, pick(top - 1)), pick, top - 1)
  }

  /** The Fisher-Yates shuffle of all of `s` under the choices `pick`. */
  function FisherYates<T>(s: seq<T>, pick: nat -> nat): seq<T>
    requires IsPicker(pick)
  {
    ShuffleBelow(s, pick, |s|)
  }

  lemma SwapPermutes<T>(s: seq<T>, i: nat, j: nat)
    requires i < |s| && j < |s|
    ensures multiset(Swap(s, i, j)) == multiset(s)
  {
    if i != j {
      var t := s[i := s[j]];
      assert multiset(t) == multiset(s) - multiset{s[i]} + multiset{s[j]};
    }
  }

  lemma {:induction false} ShuffleBelowPermutes<T>(s: seq<T>, pick: nat -> nat, top: nat)
    requires top <= |s|
    requires IsPicker(pick)
    ensures |ShuffleBelow(s, pick, top)| == |s|
    ensures multiset(ShuffleBelow(s, pick, top)) == multiset(s)
    decreases top
  {
    if top > 1 {
      SwapPermutes(s, top - 1, pick(top - 1));
      ShuffleBelowPermutes(Swap(s, top - 1, pick(top - 1)), pick, top - 1);
    }
  }

  /** Whatever the random draws, the shuffle is a permutation of its input. */
  lemma FisherYatesPermutes<T>(s: seq<T>, pick: nat -> nat)
    requires IsPicker(pick)
    ensures |FisherYates(s, pick)| == |s|
    ensures multiset(FisherYates(s, pick)) == multiset(s)
  {
    ShuffleBelowPermutes(s, pick, |s|);
  }

  /** When every draw is the index itself no swap moves anything. */
  lemma {:induction false} IdentityPickKeepsOrder<T>(s: seq<T>, pick: nat -> nat, top: nat)
    requires top <= |s|
    requires forall i :: pick(i) == i
    ensures ShuffleBelow(s, pick, top) == s
    decreases top
  {
    if top > 1 {
      assert Swap(s, top - 1, pick(top - 1)) == s;
      IdentityPickKeepsOrder(s, pick, top - 1);
    }
  }

  /**
   * `shuffleArray`: copy the list into a fresh array, swap from the last index
   * down to 1, and return the copy. The argument is a value and is not changed.
   */
  method ShuffleArray<T>(s: seq<T>, pick: nat -> nat) returns (r: seq<T>)
    requires IsPicker(pick)
    ensures r == FisherYates(s, pick)
    ensures |r| == |s| && multiset(r) == multiset(s)
  {
    var arr := new T[|s|](i requires 0 <= i < |s| => s[i]);
    assert arr[..] == s;
    var i := |s| - 1;
    while i > 0
      invariant -1 <= i < |s|
      invariant ShuffleBelow(arr[..], pick, i + 1) == FisherYates(s, pick)
      decreases i
    {
      var j := pick(i);
      arr[i], arr[j] := arr[j], arr[i];
      i := i - 1;
    }
    r := arr[..];
    FisherYatesPermutes(s, pick);
  }
}
