/** The reordering of a fresh result in App.tsx: `result.sort((a, b) => b.rating - a.rating)`.
    `Array.prototype.sort` is stable (ECMA-262, 10th edition, section 22.1.3.27),
    so the result is the stable sort by non-increasing rating. */
module RatingSort {
  import opened AnimeTypes

  type Rec = AnimeRecommendation

  /** Puts `x` behind every element rated at least as high, scanning from the end. */
  function InsertByRating(s: seq<Rec>, x: Rec): (r: seq<Rec>)
    ensures |r| == |s| + 1
  {
    if s == [] then [x]
    else if s[|s| - 1].rating >= x.rating then s + [x]
    else InsertByRating(s[..|s| - 1], x) + [s[|s| - 1]]
  }

  /** The stable sort by non-increasing rating, taking elements left to right. */
  function SortByRatingDesc(s: seq<Rec>): (r: seq<Rec>)
    ensures |r| == |s|
  {
    if s == [] then [] else InsertByRating(SortByRatingDesc(s[..|s| - 1]), s[|s| - 1])
  }

  ghost predicate NonIncreasing(s: seq<Rec>) {
    forall i, j :: 0 <= i < j < |s| ==> s[i].rating >= s[j].rating
  }

  /** The elements of `s` rated exactly `r`, in their order in `s`. */
  function WithRating(s: seq<Rec>, r: real): seq<Rec> {
    if s == [] then []
    else WithRating(s[..|s| - 1], r) + (if s[|s| - 1].rating == r then [s[|s| - 1]] else [])
  }

  lemma WithRatingSnoc(s: seq<Rec>, x: Rec, r: real)
    ensures WithRating(s + [x], r) == WithRating(s, r) + (if x.rating == r then [x] else [])
  {
    assert (s + [x])[..|s|] == s;
  }

  /** Inserting adds exactly `x`. */
  lemma {:induction false} InsertAddsOne(s: seq<Rec>, x: Rec)
    ensures multiset(InsertByRating(s, x)) == multiset(s) + multiset{x}
  {
    if s != [] && s[|s| - 1].rating < x.rating {
      var init := s[..|s| - 1];
      assert s == init + [s[|s| - 1]];
      InsertAddsOne(init, x);
    }
  }

  /** Inserting into an ordered list keeps it ordered. */
  lemma {:induction false} InsertKeepsOrder(s: seq<Rec>, x: Rec)
    requires NonIncreasing(s)
    ensures NonIncreasing(InsertByRating(s, x))
  {
    if s != [] && s[|s| - 1].rating < x.rating {
      var init, last := s[..|s| - 1], s[|s| - 1];
      InsertKeepsOrder(init, x);
      InsertAddsOne(init, x);
      var ins := InsertByRating(init, x);
      forall k | 0 <= k < |ins| ensures ins[k].rating >= last.rating {
        assert ins[k] in multiset(ins);
        if ins[k] != x {
          assert ins[k] in multiset(init);
          var m :| 0 <= m < |init| && init[m] == ins[k];
          assert s[m] == ins[k];
        }
      }
    }
  }

  /** Inserting puts `x` behind every element rated the same: the elements of
      any one rating keep their order, and `x` comes last among its own. */
  lemma {:induction false} InsertKeepsTies(s: seq<Rec>, x: Rec, r: real)
    ensures WithRating(InsertByRating(s, x), r) == WithRating(s, r) + (if x.rating == r then [x] else [])
  {
    if s == [] {
      WithRatingSnoc([], x, r);
    } else if s[|s| - 1].rating >= x.rating {
      WithRatingSnoc(s, x, r);
    } else {
      var init, last := s[..|s| - 1], s[|s| - 1];
      assert s == init + [last];
      InsertKeepsTies(init, x, r);
      WithRatingSnoc(InsertByRating(init, x), last, r);
      WithRatingSnoc(init, last, r);
    }
  }

  /** The result is ordered by non-increasing rating, is a permutation of the
      input, and keeps the input order among equally rated elements. */
  lemma {:induction false} SortedByRating(s: seq<Rec>)
    ensures NonIncreasing(SortByRatingDesc(s))
    ensures multiset(SortByRatingDesc(s)) == multiset(s)
    ensures forall r :: WithRating(SortByRatingDesc(s), r) == WithRating(s, r)
  {
    if s != [] {
      var init, last := s[..|s| - 1], s[|s| - 1];
      assert s == init + [last];
      SortedByRating(init);
      InsertKeepsOrder(SortByRatingDesc(init), last);
      InsertAddsOne(SortByRatingDesc(init), last);
      forall r ensures WithRating(SortByRatingDesc(s), r) == WithRating(s, r) {
        InsertKeepsTies(SortByRatingDesc(init), last, r);
        WithRatingSnoc(init, last, r);
      }
    }
  }

  /** Inserting at a position whose left neighbour is rated at least as high and
      whose right side is rated strictly lower is what `InsertByRating` does. */
  lemma {:induction false} InsertAt(s: seq<Rec>, x: Rec, j: nat)
    requires j <= |s|
    requires j > 0 ==> s[j - 1].rating >= x.rating
    requires forall k :: j <= k < |s| ==> s[k].rating < x.rating
    ensures InsertByRating(s, x) == s[..j] + [x] + s[j..]
    decreases |s| - j
  {
    if j < |s| {
      var init := s[..|s| - 1];
      InsertAt(init, x, j);
      assert init[..j] == s[..j];
      assert s[j..] == init[j..] + [s[|s| - 1]];
    } else {
      assert s[..j] == s;
    }
  }

  /** One step of the insertion sort: shifts `a[i]` left past the elements of
      the ordered prefix `a[..i]` that are rated strictly lower. */
  method InsertLast(a: array<Rec>, i: nat)
    requires i < a.Length
    modifies a
    ensures a[..i + 1] == InsertByRating(old(a[..i]), old(a[i]))
    ensures a[i + 1..] == old(a[i + 1..])
  {
    ghost var done := a[..i];
    var x := a[i];
    var j := i;
    while j > 0 && a[j - 1].rating < x.rating
      invariant 0 <= j <= i
      invariant forall k :: 0 <= k < j ==> a[k] == done[k]
      invariant forall k :: j < k <= i ==> a[k] == done[k - 1]
      invariant forall k :: j <= k < i ==> done[k].rating < x.rating
      invariant forall k :: i < k < a.Length ==> a[k] == old(a[k])
    {
      a[j] := a[j - 1];
      j := j - 1;
    }
    a[j] := x;
    InsertAt(done, x, j);
    assert a[..i + 1] == done[..j] + [x] + done[j..];
  }

  /** The in-place sort that the comparator `b.rating - a.rating` gives: an
      insertion sort, which is stable. */
  method SortInPlace(a: array<Rec>)
    modifies a
    ensures a[..] == SortByRatingDesc(old(a[..]))
  {
    ghost var input := a[..];
    var i := 0;
    while i < a.Length
      invariant 0 <= i <= a.Length
      invariant a[..i] == SortByRatingDesc(input[..i])
      invariant a[i..] == input[i..]
    {
      InsertLast(a, i);
      assert input[..i + 1][..i] == input[..i];
      i := i + 1;
    }
    assert input[..a.Length] == input;
  }
}
