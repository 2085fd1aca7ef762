/** The in-place ranking passes (internal/index/ranking.go) and what the ranking
    guarantees. The sort-and-group walk is proved to compute the naive
    definition `Discounted`.
 */
module Ranking {
  import opened Ordering
  import opened Sorting
  import opened Domain
  import opened LookupModel

  ghost function Ids(q: seq<ReplicaScore>): set<string> {
    set i | 0 <= i < |q| :: q[i].replica
  }

  /** `q` lists the scores of `m`, each replica once, in some order. */
  ghost predicate Lists(q: seq<ReplicaScore>, m: Scores) {
    && (forall i, j :: 0 <= i < j < |q| ==> q[i].replica != q[j].replica)
    && Ids(q) == m.Keys
    && (forall i :: 0 <= i < |q| ==> m[q[i].replica] == q[i])
  }

  predicate DeeperFirst(x: ReplicaScore, y: ReplicaScore) {
    if x.matched != y.matched then x.matched > y.matched else Less(x.replica, y.replica)
  }

  predicate RanksBefore(x: ReplicaScore, y: ReplicaScore) {
    if x.score != y.score then x.score > y.score else Less(x.replica, y.replica)
  }

  /** Scores never rise along the list, and equal scores come in id order. */
  ghost predicate BestFirst(q: seq<ReplicaScore>) {
    forall i, j :: 0 <= i < j < |q| ==>
      q[i].score >= q[j].score && (q[i].score == q[j].score ==> ByteBefore(q[i].replica, q[j].replica))
  }

  lemma BestFirstIsRanked(q: seq<ReplicaScore>)
    ensures BestFirst(q) <==> Ascending(RanksBefore, q)
  {
    hide Less, ByteBefore;
    forall i, j | 0 <= i < j < |q| ensures Less(q[i].replica, q[j].replica) <==> ByteBefore(q[i].replica, q[j].replica) {
      LessIsByteOrder(q[i].replica, q[j].replica);
    }
  }

  /** The first of a ranked listing is the best of all that is listed. */
  lemma FirstIsBest(q: seq<ReplicaScore>, m: Scores, r: string)
    requires Lists(q, m) && BestFirst(q) && r in m
    ensures |q| > 0 && q[0].score >= m[r].score
  {
    hide ByteBefore;
    assert r in Ids(q);
    var i :| 0 <= i < |q| && q[i].replica == r;
  }

  lemma IdOrder(x: ReplicaScore, y: ReplicaScore, z: ReplicaScore)
    ensures !Less(x.replica, x.replica)
    ensures x.replica == y.replica || Less(x.replica, y.replica) || Less(y.replica, x.replica)
    ensures Less(x.replica, y.replica) && Less(y.replica, z.replica) ==> Less(x.replica, z.replica)
  {
    LessIrreflexive(x.replica);
    LessTotal(x.replica, y.replica);
    if Less(x.replica, y.replica) && Less(y.replica, z.replica) {
      LessTransitive(x.replica, y.replica, z.replica);
    }
  }

  lemma OrdersAreStrict(q: seq<ReplicaScore>, m: Scores)
    requires Lists(q, m)
    ensures Distinct(q) && StrictOn(DeeperFirst, Elems(q)) && StrictOn(RanksBefore, Elems(q))
  {
    var s := Elems(q);
    assert IdsDiffer(s) by {
      hide Less;
    }
    DeeperFirstStrict(s);
    RanksBeforeStrict(s);
  }

  ghost predicate IdsDiffer(s: set<ReplicaScore>) {
    forall x, y :: x in s && y in s && x != y ==> x.replica != y.replica
  }

  lemma DeeperFirstStrict(s: set<ReplicaScore>)
    requires IdsDiffer(s)
    ensures StrictOn(DeeperFirst, s)
  {
    hide Less;
    forall x, y, z | x in s && y in s && z in s
      ensures !DeeperFirst(x, x)
      ensures x != y ==> DeeperFirst(x, y) || DeeperFirst(y, x)
      ensures DeeperFirst(x, y) && DeeperFirst(y, z) ==> DeeperFirst(x, z)
    {
      IdOrder(x, y, z);
    }
  }

  lemma RanksBeforeStrict(s: set<ReplicaScore>)
    requires IdsDiffer(s)
    ensures StrictOn(RanksBefore, s)
  {
    hide Less;
    forall x, y, z | x in s && y in s && z in s
      ensures !RanksBefore(x, x)
      ensures x != y ==> RanksBefore(x, y) || RanksBefore(y, x)
      ensures RanksBefore(x, y) && RanksBefore(y, z) ==> RanksBefore(x, z)
    {
      IdOrder(x, y, z);
    }
  }

  /** Reordering a listing leaves it a listing. */
  lemma ReorderedLists(p: seq<ReplicaScore>, q: seq<ReplicaScore>, m: Scores)
    requires Lists(p, m) && Distinct(q) && Elems(q) == Elems(p)
    ensures Lists(q, m)
  {
    forall i | 0 <= i < |q| ensures q[i] in p {
      assert q[i] in Elems(q);
    }
    assert Ids(q) == Ids(p) by {
      forall i | 0 <= i < |p| ensures p[i].replica in Ids(q) {
        assert p[i] in Elems(p);
        var j :| 0 <= j < |q| && q[j] == p[i];
      }
    }
  }

  lemma AscendingDistinct<T(!new)>(less: (T, T) -> bool, q: seq<T>, s: set<T>)
    requires Ascending(less, q) && StrictOn(less, s) && Elems(q) <= s
    ensures Distinct(q)
  {
    forall i, j | 0 <= i < j < |q| ensures q[i] != q[j] {
      assert q[i] in Elems(q) && less(q[i], q[j]);
    }
  }

  /** `sortScoresDescByScoreThenID` */
  method SortByScore(a: array<ReplicaScore>, ghost m: Scores)
    requires Lists(a[..], m)
    modifies a
    ensures Lists(a[..], m) && BestFirst(a[..])
  {
    ghost var before := a[..];
    OrdersAreStrict(before, m);
    SortSlice(a, RanksBefore);
    AscendingDistinct(RanksBefore, a[..], Elems(before));
    ReorderedLists(before, a[..], m);
    BestFirstIsRanked(a[..]);
  }

  /** In a listing sorted deepest first, the first `n` are the replicas matched
      at least `depth` deep when the cut falls on a depth boundary. */
  lemma DepthCount(q: seq<ReplicaScore>, m: Scores, n: nat, depth: int)
    requires Lists(q, m) && Ascending(DeeperFirst, q) && 0 < n <= |q|
    requires q[n - 1].matched == depth && (n == |q| || q[n].matched < depth)
    ensures |AtLeastAsDeep(m, depth)| == n
  {
    var cut := q[..n];
    forall i | 0 <= i < |q| ensures q[i].matched >= depth <==> i < n {
      if i < n - 1 { assert DeeperFirst(q[i], q[n - 1]); }
      if n < i { assert DeeperFirst(q[n], q[i]); }
    }
    assert AtLeastAsDeep(m, depth) == Ids(cut) by {
      forall r | r in AtLeastAsDeep(m, depth) ensures r in Ids(cut) {
        assert r in Ids(q);
        var i :| 0 <= i < |q| && q[i].replica == r;
        assert cut[i].replica == r;
      }
      forall r | r in Ids(cut) ensures r in AtLeastAsDeep(m, depth) {
        var i :| 0 <= i < |cut| && cut[i].replica == r;
        assert q[i].replica in Ids(q);
      }
    }
    IdsCard(cut);
  }

  lemma {:induction false} IdsCard(q: seq<ReplicaScore>)
    requires forall i, j :: 0 <= i < j < |q| ==> q[i].replica != q[j].replica
    ensures |Ids(q)| == |q|
  {
    if q != [] {
      var init := q[..|q| - 1];
      IdsCard(init);
      assert Ids(q) == Ids(init) + {q[|q| - 1].replica};
    }
  }

  /** Multiplies the scores of one depth group. */
  method ScaleRange(a: array<ReplicaScore>, left: nat, right: nat, f: real)
    requires left <= right <= a.Length
    modifies a
    ensures forall j :: 0 <= j < a.Length ==> a[j] == if left <= j < right then Scale(old(a[j]), f) else old(a[j])
  {
    for k := left to right
      invariant forall j :: 0 <= j < a.Length ==> a[j] == if left <= j < k then Scale(old(a[j]), f) else old(a[j])
    {
      a[k] := Scale(a[k], f);
    }
  }

  /** The end of the depth group that starts at `left`. */
  method GroupEnd(a: array<ReplicaScore>, left: nat) returns (right: nat)
    requires left < a.Length
    ensures left < right <= a.Length
    ensures forall k :: left <= k < right ==> a[k].matched == a[left].matched
    ensures right < a.Length ==> a[right].matched != a[left].matched
  {
    right := left;
    while right < a.Length && a[right].matched == a[left].matched
      invariant left <= right <= a.Length
      invariant forall k :: left <= k < right ==> a[k].matched == a[left].matched
    {
      right := right + 1;
    }
  }

  /** A maximal stretch of equal depth, up to its right end. */
  ghost predicate IsGroup(q: seq<ReplicaScore>, left: int, right: int) {
    && 0 <= left < right <= |q|
    && (forall k :: left <= k < right ==> q[k].matched == q[left].matched)
    && (right < |q| ==> q[right].matched != q[left].matched)
  }

  /** `t` scales every group of `q` by the factor of the group's right end. */
  ghost predicate GroupScaled(q: seq<ReplicaScore>, t: seq<ReplicaScore>, total: int) {
    && |t| == |q|
    && forall left, right, k :: IsGroup(q, left, right) && left <= k < right ==>
         t[k] == Scale(q[k], DistinguishingPower(right, total))
  }

  /** Walks the groups of equal depth, multiplying each by its one factor. */
  method WalkGroups(a: array<ReplicaScore>, total: int, ghost t: seq<ReplicaScore>)
    requires GroupScaled(a[..], t, total)
    modifies a
    ensures a[..] == t
  {
    ghost var q := a[..];
    var left := 0;
    while left < a.Length
      invariant 0 <= left <= a.Length == |q|
      invariant a[..left] == t[..left] && a[left..] == q[left..]
    {
      var right := GroupEnd(a, left);
      assert IsGroup(q, left, right) by {
        assert forall k :: left <= k < a.Length ==> q[k] == q[left..][k - left] == a[left..][k - left] == a[k];
      }
      var dp := DistinguishingPower(right, total);
      if dp != 1.0 {
        ScaleRange(a, left, right, dp);
      }
      left := right;
    }
  }

  /** `applyChainDistinguishingPower`: sort deepest first, then walk the groups of
      equal depth. */
  method ApplyChainDistinguishingPower(a: array<ReplicaScore>, total: int, ghost m: Scores)
    requires Lists(a[..], m)
    modifies a
    ensures Lists(a[..], Discounted(m, total))
  {
    if total <= 1 || a.Length == 0 {
      assert Discounted(m, total) == m;
      return;
    }
    ghost var before := a[..];
    OrdersAreStrict(before, m);
    SortSlice(a, DeeperFirst);
    ghost var q := a[..];
    AscendingDistinct(DeeperFirst, q, Elems(before));
    ReorderedLists(before, q, m);
    ghost var t := NaiveDiscount(q, m, total);
    WalkGroups(a, total, t);
  }

  /** The naive discount of a depth-sorted listing scales group by group. */
  lemma NaiveDiscount(q: seq<ReplicaScore>, m: Scores, total: int) returns (t: seq<ReplicaScore>)
    requires Lists(q, m) && Ascending(DeeperFirst, q)
    ensures GroupScaled(q, t, total) && Lists(t, Discounted(m, total))
  {
    var d := Discounted(m, total);
    assert forall k :: 0 <= k < |q| ==> q[k].replica in Ids(q);
    t := seq(|q|, k requires 0 <= k < |q| => d[q[k].replica]);
    forall left, right, k | IsGroup(q, left, right) && left <= k < right
      ensures t[k] == Scale(q[k], DistinguishingPower(right, total))
    {
      assert right < |q| ==> DeeperFirst(q[left], q[right]);
      assert q[right - 1].matched == q[left].matched == q[k].matched;
      DepthCount(q, m, right, q[left].matched);
    }
    RescaledLists(q, t, m, d);
  }

  lemma RescaledLists(q: seq<ReplicaScore>, r: seq<ReplicaScore>, m: Scores, d: Scores)
    requires Lists(q, m) && |r| == |q| && d.Keys == m.Keys
    requires forall k :: 0 <= k < |q| ==> q[k].replica in d && r[k] == d[q[k].replica] && r[k].replica == q[k].replica
    ensures Lists(r, d)
  {
    assert Ids(r) == Ids(q) by {
      forall k | 0 <= k < |q| ensures q[k].replica in Ids(r) {
        assert r[k].replica == q[k].replica;
      }
    }
  }

  // ---- What the ranking guarantees ----

  lemma Product3(a: real, b: real, x: real, y: real)
    requires 0.0 <= a <= b && 0.0 <= x <= y
    ensures 0.0 <= a * x <= b * y
  {
    assert 0.0 <= a * x <= b * x <= b * y;
  }

  /** More matched tokens at equal freshness and pressure: no lower base score. */
  lemma BaseScoreMonotone(t: int, t': int, freshness: real, pressure: real, ranker: RankerConfig, ttftMs: int)
    requires 0 <= t <= t' && 0.0 <= freshness
    ensures 0.0 <= BaseScore(t, freshness, pressure, ranker, ttftMs) <= BaseScore(t', freshness, pressure, ranker, ttftMs)
  {
    var p := PressureFactorAt(pressure, ranker.pressureWeight);
    var b := 1.0 + freshness * SloCoefficient(ranker, ttftMs);
    assert freshness * SloCoefficient(ranker, ttftMs) >= 0.0;
    var x, y := t as real, t' as real;
    Product3(x, y, freshness, freshness);
    Product3(x * freshness, y * freshness, p, p);
    Product3(x * freshness * p, y * freshness * p, b, b);
    assert x * freshness >= 0.0 && x * freshness * p >= 0.0 && x * freshness * p * b >= 0.0;
  }

  lemma ScaleOrder(a: ReplicaScore, b: ReplicaScore, x: real, y: real)
    requires 0.0 <= a.score <= b.score && 0.0 <= x <= y
    ensures Scale(b, y).score >= Scale(a, x).score >= 0.0
  {
    Product3(a.score, b.score, x, y);
  }

  /** The discount keeps the order of scores that agree with depth. */
  lemma DiscountKeepsOrder(m: Scores, total: int, r: string, s: string)
    requires r in m && s in m && m[r].matched >= m[s].matched && 0.0 <= m[s].score <= m[r].score
    ensures Discounted(m, total)[r].score >= Discounted(m, total)[s].score >= 0.0
  {
    var deep, shallow := AtLeastAsDeep(m, m[r].matched), AtLeastAsDeep(m, m[s].matched);
    var x, y := DistinguishingPower(|shallow|, total), DistinguishingPower(|deep|, total);
    assert x <= y by {
      assert deep <= shallow;
      SubsetCard(deep, shallow);
      DistinguishingPowerAntitone(|deep|, |shallow|, total);
    }
    assert Discounted(m, total)[r] == Scale(m[r], y);
    assert Discounted(m, total)[s] == Scale(m[s], x);
    ScaleOrder(m[s], m[r], x, y);
  }

  /** With equal freshness and pressure a deeper match never scores lower than a
      shallower one. */
  lemma DeeperNeverScoresLower(q: Query, stats: map<StatsKey, StatEntry>, ranker: RankerConfig, r: string, s: string)
    requires |q.req.blockHashes| == |q.req.blockTokenCounts|
    requires r in ChainBase(q, stats, ranker) && s in ChainBase(q, stats, ranker)
    requires var m := ChainBase(q, stats, ranker); m[r].hitProb == m[s].hitProb && m[r].matched >= m[s].matched
    requires PressureOf(q, stats, r) == PressureOf(q, stats, s)
    ensures ChainScores(q, stats, ranker)[r].score >= ChainScores(q, stats, ranker)[s].score >= 0.0
  {
    var m := ChainBase(q, stats, ranker);
    assert 0.0 <= m[s].score <= m[r].score by {
      BaseScoreMonotone(m[s].matched, m[r].matched, m[r].hitProb, PressureOf(q, stats, r), ranker, q.req.ttftBudgetMs);
    }
    DiscountKeepsOrder(m, |ServingSet(q)|, r, s);
  }

  /** The numerator never exceeds the serving set, so the clamp for an over-count
      is never what decides a score. */
  lemma CountWithinServing(q: Query, stats: map<StatsKey, StatEntry>, ranker: RankerConfig, depth: int)
    ensures |q.req.blockHashes| == |q.req.blockTokenCounts| ==>
              |AtLeastAsDeep(ChainBase(q, stats, ranker), depth)| <= |ServingSet(q)|
    ensures |ExactBase(q, stats, ranker)| <= |ServingSet(q)|
  {
    if |q.req.blockHashes| == |q.req.blockTokenCounts| {
      SubsetCard(AtLeastAsDeep(ChainBase(q, stats, ranker), depth), ServingSet(q));
    }
    var m := ExactBase(q, stats, ranker);
    SubsetCard(m.Keys, ServingSet(q));
    assert |m| == |m.Keys|;
  }

  /** An overlap that every one of two or more serving replicas holds at the same
      depth distinguishes nobody: every score is zero. */
  lemma TrivialOverlapScoresZero(q: Query, stats: map<StatsKey, StatEntry>, ranker: RankerConfig)
    requires |q.req.blockHashes| == |q.req.blockTokenCounts|
    requires |ServingSet(q)| >= 2 && ChainBase(q, stats, ranker).Keys == ServingSet(q)
    requires var m := ChainBase(q, stats, ranker);
             forall r, s :: r in m && s in m ==> m[r].matched == m[s].matched
    ensures forall r :: r in ChainScores(q, stats, ranker) ==> ChainScores(q, stats, ranker)[r].score == 0.0
  {
    hide ChainBase, ServingSet;
    var m := ChainBase(q, stats, ranker);
    forall r | r in m ensures AtLeastAsDeep(m, m[r].matched) == ServingSet(q) {
    }
  }

  lemma TrivialExactOverlapScoresZero(q: Query, stats: map<StatsKey, StatEntry>, ranker: RankerConfig)
    requires |ServingSet(q)| >= 2 && ExactBase(q, stats, ranker).Keys == ServingSet(q)
    ensures forall r :: r in ExactScores(q, stats, ranker) ==> ExactScores(q, stats, ranker)[r].score == 0.0
  {
    hide ExactBase, ServingSet;
    assert |ExactBase(q, stats, ranker)| == |ExactBase(q, stats, ranker).Keys|;
  }
}
