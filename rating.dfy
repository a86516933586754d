/** The rating aggregate that creating a review maintains on its title
    (perform_create in watchlist_app/api/views.py): the first rating seeds
    the average, every later one is blended with it half and half. */
module Rating {
  import opened Entities

  /** `x` lies between `a` and `b`, inclusive, whichever is larger. */
  predicate Between(x: real, a: real, b: real) {
    (a <= x <= b) || (b <= x <= a)
  }

  /** The title after one more rating has been recorded on it. */
  function Rated(t: Title, rating: int): (t': Title)
    ensures t'.numberRating == t.numberRating + 1
    ensures t'.name == t.name && t'.storyline == t.storyline && t'.active == t.active
    ensures t.numberRating == 0 ==> t'.avgRating == rating as real
    ensures t.numberRating > 0 ==> t'.avgRating - t.avgRating == rating as real - t'.avgRating
    ensures Between(t'.avgRating, t.avgRating, rating as real)
  {
    var avg := if t.numberRating == 0 then rating as real
               else (t.avgRating + rating as real) / 2.0;
    t.(avgRating := avg, numberRating := t.numberRating + 1)
  }

  /** The average a true running mean would give for the same update. */
  function RunningMean(t: Title, rating: int): real {
    (t.avgRating * t.numberRating as real + rating as real) / (t.numberRating as real + 1.0)
  }

  /** On a title rated before, the blend agrees with the running mean only
      when exactly one rating preceded it or the new rating equals the
      current average: it is not a mean. */
  lemma BlendMatchesMeanOnlyIf(t: Title, rating: int)
    requires t.numberRating >= 1
    ensures Rated(t, rating).avgRating == RunningMean(t, rating)
        <==> t.numberRating == 1 || rating as real == t.avgRating
  {
    var a, r, n := t.avgRating, rating as real, t.numberRating as real;
    assert Rated(t, rating).avgRating == (a + r) / 2.0;
    assert RunningMean(t, rating) == (a * n + r) / (n + 1.0);
    calc {
      (a + r) / 2.0 == (a * n + r) / (n + 1.0);
    <==> (a + r) * (n + 1.0) == 2.0 * (a * n + r);
    <==> { assert (a + r) * (n + 1.0) - 2.0 * (a * n + r) == (a - r) * (1.0 - n); }
      (a - r) * (1.0 - n) == 0.0;
    <==> { ZeroProduct(a - r, 1.0 - n); }
      a == r || n == 1.0;
    }
  }

  lemma ZeroProduct(x: real, y: real)
    ensures x * y == 0.0 <==> x == 0.0 || y == 0.0
  {
  }

  /** The title after the ratings `ratings` have been recorded in order. */
  function Replay(t: Title, ratings: seq<int>): (t': Title)
    ensures t'.numberRating == t.numberRating + |ratings|
    ensures t'.name == t.name && t'.storyline == t.storyline && t'.active == t.active
    decreases |ratings|
  {
    if ratings == [] then t else Replay(Rated(t, ratings[0]), ratings[1..])
  }

  /** The average stays within the range of the ratings it has seen. */
  lemma {:induction false} ReplayStaysInRange(t: Title, ratings: seq<int>, lo: int, hi: int)
    requires forall i :: 0 <= i < |ratings| ==> lo <= ratings[i] <= hi
    requires t.numberRating >= 1 ==> lo as real <= t.avgRating <= hi as real
    ensures Replay(t, ratings).numberRating >= 1 ==>
              lo as real <= Replay(t, ratings).avgRating <= hi as real
    decreases |ratings|
  {
    if ratings != [] {
      var t1 := Rated(t, ratings[0]);
      assert lo as real <= t1.avgRating <= hi as real;
      ReplayStaysInRange(t1, ratings[1..], lo, hi);
    }
  }

  function Pow2(n: nat): (p: real)
    ensures p >= 1.0
  {
    if n == 0 then 1.0 else 2.0 * Pow2(n - 1)
  }

  /** Two rated titles that receive the same later ratings end up with
      averages whose distance has been halved once per rating. */
  lemma {:induction false} DistanceHalves(t1: Title, t2: Title, ratings: seq<int>)
    requires t1.numberRating >= 1 && t2.numberRating >= 1
    ensures Replay(t1, ratings).avgRating - Replay(t2, ratings).avgRating
         == (t1.avgRating - t2.avgRating) / Pow2(|ratings|)
    decreases |ratings|
  {
    if ratings != [] {
      var u1, u2 := Rated(t1, ratings[0]), Rated(t2, ratings[0]);
      var d := t1.avgRating - t2.avgRating;
      assert u1.avgRating - u2.avgRating == d / 2.0;
      DistanceHalves(u1, u2, ratings[1..]);
      var p := Pow2(|ratings| - 1);
      assert Pow2(|ratings|) == 2.0 * p;
      assert (d / 2.0) / p == d / (2.0 * p);
    }
  }

  /** The first rating of a title weighs 1/2^k after k further ratings
      (a true mean would give it weight 1/(k+1)): two histories that differ
      only in their first rating end that far apart. */
  lemma FirstRatingWeight(t: Title, s1: seq<int>, s2: seq<int>)
    requires t.numberRating == 0
    requires |s1| == |s2| >= 1 && s1[1..] == s2[1..]
    ensures Replay(t, s1).avgRating - Replay(t, s2).avgRating
         == (s1[0] - s2[0]) as real / Pow2(|s1| - 1)
  {
    var ta, tb := Rated(t, s1[0]), Rated(t, s2[0]);
    var rest, p := s1[1..], Pow2(|s1| - 1);
    var d := (s1[0] - s2[0]) as real;
    assert ta.avgRating - tb.avgRating == d;
    assert Replay(t, s1) == Replay(ta, rest);
    assert Replay(t, s2) == Replay(tb, rest);
    assert Replay(ta, rest).avgRating - Replay(tb, rest).avgRating == d / p by {
      DistanceHalves(ta, tb, rest);
    }
  }

  function Sum(ratings: seq<int>): int {
    if ratings == [] then 0 else ratings[0] + Sum(ratings[1..])
  }

  /** The arithmetic mean of all ratings, for comparison. */
  function Mean(ratings: seq<int>): real
    requires |ratings| > 0
  {
    Sum(ratings) as real / |ratings| as real
  }

  /** Ratings 1, 1, 4 on a fresh title leave the average at 2.5, while their
      mean is 2. */
  lemma BlendIsNotMean(t: Title)
    requires t.numberRating == 0
    ensures Replay(t, [1, 1, 4]).avgRating == 2.5
    ensures Mean([1, 1, 4]) == 2.0
  {
  }
}
