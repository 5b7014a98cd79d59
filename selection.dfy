/** Boolean-mask indexing of a table (`df[mask]`): the rows whose mask entry is
    true, kept in their original relative order. The mask of both filters is an
    element-wise conjunction over the row, so it is modelled as a predicate
    `keep` applied to each row. */
module Selection {

  /** The elements of `s` that `keep` accepts, in their original order. */
  function Select<T(==,!new)>(s: seq<T>, keep: T -> bool): (r: seq<T>)
    ensures |r| <= |s|
    ensures forall x :: x in r <==> x in s && keep(x)
  {
    if s == [] then []
    else if keep(s[0]) then [s[0]] + Select(s[1..], keep)
    else Select(s[1..], keep)
  }

  /** `idx` is a strictly increasing list of positions of `s`, and `r` is `s`
      read at those positions: `r` is an order-preserving subsequence of `s`. */
  ghost predicate PicksAt<T>(r: seq<T>, s: seq<T>, idx: seq<int>)
  {
    && |idx| == |r|
    && (forall k :: 0 <= k < |idx| ==> 0 <= idx[k] < |s| && r[k] == s[idx[k]])
    && (forall k, l :: 0 <= k < l < |idx| ==> idx[k] < idx[l])
  }

  /** The positions of `s` whose element `keep` accepts, in increasing order. */
  ghost function KeptPositions<T>(s: seq<T>, keep: T -> bool): seq<int>
  {
    if s == [] then []
    else if keep(s[0]) then [0] + Shift(KeptPositions(s[1..], keep))
    else Shift(KeptPositions(s[1..], keep))
  }

  /** The selection is `s` read at the accepted positions, in increasing
      order, and a position is among them exactly when `keep` accepts its
      element: nothing is fabricated, nothing is reordered, nothing accepted
      is dropped. */
  lemma {:induction false} SelectPicks<T(!new)>(s: seq<T>, keep: T -> bool)
    ensures PicksAt(Select(s, keep), s, KeptPositions(s, keep))
    ensures forall i :: 0 <= i < |s| ==> (i in KeptPositions(s, keep) <==> keep(s[i]))
  {
    if s != [] {
      SelectPicks(s[1..], keep);
      PicksShift(Select(s[1..], keep), s, KeptPositions(s[1..], keep));
      forall i | 1 <= i < |s|
        ensures i in KeptPositions(s, keep) <==> keep(s[i])
      {
        assert s[i] == s[1..][i - 1];
      }
    }
  }

  /** Every position moved one place on. */
  function Shift(idx: seq<int>): seq<int>
  {
    seq(|idx|, k requires 0 <= k < |idx| => idx[k] + 1)
  }

  /** Picks from the tail of `s` are picks from `s` at positions one further on,
      and the head can be put in front of them. */
  lemma PicksShift<T>(r: seq<T>, s: seq<T>, idx: seq<int>)
    requires s != [] && PicksAt(r, s[1..], idx)
    ensures PicksAt(r, s, Shift(idx))
    ensures PicksAt([s[0]] + r, s, [0] + Shift(idx))
    ensures 0 !in Shift(idx)
    ensures forall i :: 1 <= i < |s| ==> (i in Shift(idx) <==> i - 1 in idx)
  {
  }

  /** A strictly increasing list has as many distinct entries as it has entries. */
  lemma {:induction false} IncreasingCard(idx: seq<int>)
    requires forall k, l :: 0 <= k < l < |idx| ==> idx[k] < idx[l]
    ensures |set k | 0 <= k < |idx| :: idx[k]| == |idx|
  {
    if idx != [] {
      var n := |idx| - 1;
      var front := idx[..n];
      IncreasingCard(front);
      var all := set k | 0 <= k < |idx| :: idx[k];
      var before := set k | 0 <= k < |front| :: front[k];
      assert all == before + {idx[n]} by {
        forall k | 0 <= k < n ensures idx[k] == front[k] { }
      }
      assert idx[n] !in before;
    }
  }

  /** The positions of `s` whose element `keep` accepts. */
  ghost function Positions<T>(s: seq<T>, keep: T -> bool): set<int>
  {
    set i | 0 <= i < |s| && keep(s[i])
  }

  /** The length of a selection is the number of positions `keep` accepts. */
  lemma SelectCount<T(!new)>(s: seq<T>, keep: T -> bool)
    ensures |Select(s, keep)| == |Positions(s, keep)|
  {
    SelectPicks(s, keep);
    var idx := KeptPositions(s, keep);
    assert Positions(s, keep) == (set k | 0 <= k < |idx| :: idx[k]);
    IncreasingCard(idx);
  }

  /** Selecting with a stricter `p` from a selection made with a looser `q`
      gives what selecting with `p` directly gives. */
  lemma {:induction false} SelectNarrowing<T(!new)>(s: seq<T>, p: T -> bool, q: T -> bool)
    requires forall x :: x in s && p(x) ==> q(x)
    ensures Select(Select(s, q), p) == Select(s, p)
  {
    if s != [] {
      SelectNarrowing(s[1..], p, q);
    }
  }

  /** Two predicates that agree on every element of `s` select the same rows. */
  lemma {:induction false} SelectCongruent<T(!new)>(s: seq<T>, p: T -> bool, q: T -> bool)
    requires forall x :: x in s ==> p(x) == q(x)
    ensures Select(s, p) == Select(s, q)
  {
    if s != [] {
      SelectCongruent(s[1..], p, q);
    }
  }
}
