/** Engagement arithmetic of the persona system: the normalised score of one
    post, the three engagement tiers used when compressing short-term memory,
    the trend label, and the insight summary over a user's posts. Scores are
    reals; Python's floating point rounding is not modelled. */
module Engagement {
  import opened Wrappers

  /** The weights of likes, comments, shares and views in the raw score. */
  function Raw(likes: int, comments: int, shares: int, views: int): real {
    likes as real * 1.0 + comments as real * 3.0 + shares as real * 5.0 + views as real * 0.1
  }

  /** Raw engagement that saturates the score. */
  const MaxExpected: real := 1000.0
  /** The least score any post gets. */
  const MinScore: real := 0.1

  /** `calculate_engagement_score`: the raw score over 1000, capped at 1.0 and
      raised to at least 0.1. */
  function Score(likes: int, comments: int, shares: int, views: int): (r: real)
    ensures MinScore <= r <= 1.0
    ensures r == 1.0 <==> Raw(likes, comments, shares, views) >= MaxExpected
    ensures r == MinScore <==> Raw(likes, comments, shares, views) <= MinScore * MaxExpected
    ensures MinScore * MaxExpected <= Raw(likes, comments, shares, views) <= MaxExpected
            ==> r * MaxExpected == Raw(likes, comments, shares, views)
  {
    var normalized := if Raw(likes, comments, shares, views) / MaxExpected < 1.0
                      then Raw(likes, comments, shares, views) / MaxExpected else 1.0;
    if normalized > MinScore then normalized else MinScore
  }

  /** More of every kind of interaction never lowers the score. */
  lemma ScoreMonotone(l: int, c: int, s: int, v: int, l': int, c': int, s': int, v': int)
    requires l <= l' && c <= c' && s <= s' && v <= v'
    ensures Score(l, c, s, v) <= Score(l', c', s', v')
  {
    assert Raw(l, c, s, v) <= Raw(l', c', s', v');
  }


  /** The score of a post whose engagement data is a dict: the four counts
      default to 0; a missing (or empty) dict scores 0.5, the default for
      generated posts. */
  function PostScore(data: map<string, int>): (r: real)
    ensures MinScore <= r <= 1.0
    ensures data == map[] ==> r == 0.5
  {
    if data == map[] then 0.5
    else Score(Count(data, "likes"), Count(data, "comments"), Count(data, "shares"), Count(data, "views"))
  }

  /** Posts whose data records no interaction: no data at all is a generated
      post and scores 0.5; data whose counts are all zero (or missing) scores
      the least score 0.1. */
  lemma SilentPostScore(data: map<string, int>)
    requires forall k :: k in data ==> data[k] == 0
    ensures PostScore(data) == if data == map[] then 0.5 else MinScore
  {
    if data != map[] {
      assert Raw(Count(data, "likes"), Count(data, "comments"), Count(data, "shares"), Count(data, "views")) == 0.0;
    }
  }

  /** `data.get(key, 0)` */
  function Count(data: map<string, int>, key: string): int {
    if key in data then data[key] else 0
  }

  // ---------------------------------------------------------------------
  // Sums, means and maxima of score lists (np.mean, max)

  function Sum(s: seq<real>): real {
    if s == [] then 0.0 else s[0] + Sum(s[1..])
  }

  /** `np.mean(s)` of a non-empty list. */
  function Mean(s: seq<real>): real
    requires |s| > 0
  {
    Sum(s) / |s| as real
  }

  /** `max(s)` of a non-empty list. */
  function MaxOf(s: seq<real>): (r: real)
    requires |s| > 0
    ensures r in s
    ensures forall x :: x in s ==> x <= r
  {
    if |s| == 1 then s[0]
    else
      var m := MaxOf(s[1..]);
      assert forall x :: x in s ==> x == s[0] || x in s[1..];
      if s[0] >= m then s[0] else m
  }

  predicate Within(s: seq<real>, lo: real, hi: real) {
    forall i :: 0 <= i < |s| ==> lo <= s[i] <= hi
  }

  lemma {:induction false} SumBounds(s: seq<real>, lo: real, hi: real)
    requires Within(s, lo, hi)
    ensures |s| as real * lo <= Sum(s) <= |s| as real * hi
  {
    if s != [] {
      assert Within(s[1..], lo, hi) by {
        forall i | 0 <= i < |s[1..]| ensures lo <= s[1..][i] <= hi {
          assert s[1..][i] == s[i + 1];
        }
      }
      SumBounds(s[1..], lo, hi);
      assert |s| as real * lo == lo + (|s| - 1) as real * lo;
      assert |s| as real * hi == hi + (|s| - 1) as real * hi;
    }
  }

  /** The mean of values between `lo` and `hi` is between them too. */
  lemma MeanBounds(s: seq<real>, lo: real, hi: real)
    requires |s| > 0 && Within(s, lo, hi)
    ensures lo <= Mean(s) <= hi
  {
    SumBounds(s, lo, hi);
    var n := |s| as real;
    assert Sum(s) / n >= lo by {
      assert Sum(s) >= n * lo;
      assert (n * lo) / n == lo;
    }
    assert Sum(s) / n <= hi by {
      assert Sum(s) <= n * hi;
      assert (n * hi) / n == hi;
    }
  }

  /** The mean never exceeds the maximum. */
  lemma MeanAtMostMax(s: seq<real>)
    requires |s| > 0
    ensures Mean(s) <= MaxOf(s)
  {
    assert Within(s, MinIn(s), MaxOf(s)) by {
      forall i | 0 <= i < |s| ensures s[i] <= MaxOf(s) {
        assert s[i] in s;
      }
    }
    MeanBounds(s, MinIn(s), MaxOf(s));
  }

  /** The least element of a non-empty list. */
  function MinIn(s: seq<real>): (r: real)
    requires |s| > 0
    ensures r in s
    ensures forall i :: 0 <= i < |s| ==> r <= s[i]
  {
    if |s| == 1 then s[0]
    else
      var m := MinIn(s[1..]);
      assert forall i :: 1 <= i < |s| ==> s[i] == s[1..][i - 1];
      if s[0] <= m then s[0] else m
  }

  // ---------------------------------------------------------------------
  // Engagement tiers

  /** Scores above 0.6. */
  predicate IsHigh(x: real) { x > 0.6 }
  /** Scores from 0.3 to 0.6, both included. */
  predicate IsMedium(x: real) { 0.3 <= x <= 0.6 }
  /** Scores below 0.3. */
  predicate IsLow(x: real) { x < 0.3 }

  /** The elements of `s` satisfying `p`, in order. */
  function Filter(s: seq<real>, p: real -> bool): (r: seq<real>)
    ensures |r| <= |s|
    ensures forall x :: x in r <==> x in s && p(x)
  {
    if s == [] then []
    else if p(s[0]) then [s[0]] + Filter(s[1..], p)
    else Filter(s[1..], p)
  }

  function High(s: seq<real>): seq<real> { Filter(s, IsHigh) }
  function Medium(s: seq<real>): seq<real> { Filter(s, IsMedium) }
  function Low(s: seq<real>): seq<real> { Filter(s, IsLow) }

  /** Every score falls in exactly one tier: the three tiers together are a
      permutation of the scores. */
  lemma {:induction false} TiersPartition(s: seq<real>)
    ensures multiset(High(s)) + multiset(Medium(s)) + multiset(Low(s)) == multiset(s)
    ensures |High(s)| + |Medium(s)| + |Low(s)| == |s|
  {
    if s != [] {
      TiersPartition(s[1..]);
      assert s == [s[0]] + s[1..];
    }
  }

  /** The compression trend: "improving" when the high tier outnumbers the low one. */
  function Trend(s: seq<real>): (r: string)
    ensures r == "improving" || r == "mixed"
  {
    if |High(s)| > |Low(s)| then "improving" else "mixed"
  }

  /** Posts that all score above 0.6 show an improving trend; posts that all
      score below 0.3 a mixed one. */
  lemma TrendOfUniform(s: seq<real>)
    requires |s| > 0
    ensures (forall i :: 0 <= i < |s| ==> IsHigh(s[i])) ==> Trend(s) == "improving"
    ensures (forall i :: 0 <= i < |s| ==> IsLow(s[i])) ==> Trend(s) == "mixed"
  {
    TiersPartition(s);
    if forall i :: 0 <= i < |s| ==> IsHigh(s[i]) {
      AllOrNone(s, IsHigh, IsLow);
      AllOrNone(s, IsHigh, IsMedium);
    }
    if forall i :: 0 <= i < |s| ==> IsLow(s[i]) {
      AllOrNone(s, IsLow, IsHigh);
    }
  }

  /** When every element satisfies `p` and none satisfies `q`, `p` keeps all
      of them and `q` none. */
  lemma {:induction false} AllOrNone(s: seq<real>, p: real -> bool, q: real -> bool)
    requires forall i :: 0 <= i < |s| ==> p(s[i]) && !q(s[i])
    ensures Filter(s, p) == s && Filter(s, q) == []
  {
    if s != [] {
      AllOrNone(s[1..], p, q);
    }
  }

  /** The trend follows the majority: more than half of the batch above 0.6
      is improving, at least half below 0.3 is mixed. */
  lemma MajorityTrend(s: seq<real>)
    ensures 2 * |High(s)| > |s| ==> Trend(s) == "improving"
    ensures 2 * |Low(s)| >= |s| ==> Trend(s) == "mixed"
  {
    TiersPartition(s);
  }

  // ---------------------------------------------------------------------
  // Engagement insights

  datatype Insights = Insights(
    totalPosts: nat,
    avgEngagement: real,
    peakEngagement: real,
    highPerformers: nat,
    trend: string)

  /** The recent-performance trend: "improving" when there are more than
      three posts and the mean of the last three beats the mean of the rest. */
  function RecentTrend(s: seq<real>): (r: string)
    ensures r == "improving" <==> |s| > 3 && Mean(s[|s| - 3..]) > Mean(s[..|s| - 3])
    ensures r == "improving" || r == "stable"
  {
    if |s| > 3 && Mean(s[|s| - 3..]) > Mean(s[..|s| - 3]) then "improving" else "stable"
  }

  /** The mean of a non-empty list lies between its least and greatest element. */
  lemma MeanBetween(s: seq<real>)
    requires |s| > 0
    ensures MinIn(s) <= Mean(s) <= MaxOf(s)
  {
    assert Within(s, MinIn(s), MaxOf(s)) by {
      forall i | 0 <= i < |s| ensures s[i] <= MaxOf(s) {
        assert s[i] in s;
      }
    }
    MeanBounds(s, MinIn(s), MaxOf(s));
  }

  /** When every element of `a` is below every element of `b`, so are their
      means; when none is below, neither are the means. */
  lemma MeansApart(a: seq<real>, b: seq<real>)
    requires |a| > 0 && |b| > 0
    ensures (forall x, y :: x in a && y in b ==> x < y) ==> Mean(a) < Mean(b)
    ensures (forall x, y :: x in a && y in b ==> y <= x) ==> Mean(b) <= Mean(a)
  {
    MeanBetween(a);
    MeanBetween(b);
    assert MaxOf(a) in a && MinIn(a) in a && MaxOf(b) in b && MinIn(b) in b;
  }

  /** At most three posts are stable. When each of the last three posts
      beats every earlier one the trend is improving; when none of them
      beats any earlier one it is stable (so is a constant list). */
  lemma RecentTrendOrder(s: seq<real>)
    ensures |s| <= 3 ==> RecentTrend(s) == "stable"
    ensures |s| > 3 ==>
              var early, recent := s[..|s| - 3], s[|s| - 3..];
              && ((forall x, y :: x in early && y in recent ==> x < y) ==> RecentTrend(s) == "improving")
              && ((forall x, y :: x in early && y in recent ==> y <= x) ==> RecentTrend(s) == "stable")
  {
    if |s| > 3 {
      MeansApart(s[..|s| - 3], s[|s| - 3..]);
    }
  }

  /** `get_engagement_insights` over the scores of a user's posts; none for a
      user without posts. */
  function InsightsOf(s: seq<real>): (r: Option<Insights>)
    ensures r.None? <==> s == []
    ensures r.Some? ==> r.value.totalPosts == |s| && r.value.highPerformers == |High(s)|
  {
    if s == [] then None
    else Some(Insights(|s|, Mean(s), MaxOf(s), |High(s)|, RecentTrend(s)))
  }

  /** For scores in the score range, the insight figures stay in it, the
      average never exceeds the peak, and high performers are among the posts. */
  lemma InsightsInRange(s: seq<real>)
    requires |s| > 0 && Within(s, MinScore, 1.0)
    ensures var r := InsightsOf(s).value;
            && MinScore <= r.avgEngagement <= r.peakEngagement <= 1.0
            && r.highPerformers <= r.totalPosts
            && r.peakEngagement in s
  {
    MeanBounds(s, MinScore, 1.0);
    MeanAtMostMax(s);
    assert MaxOf(s) in s;
  }
}
