/** The random and source-tracking policies: the cumulative map divides [0, 1)
    between the eligible destinations in proportion to their weights. */
module WeightMap {
  import opened RouterState
  import opened RouterInvariant

  ghost predicate Usable(s: State) {
    s.ctx.minWeight >= EPS
  }

  /** Lower end of row `i`'s interval. */
  ghost function Low(s: State, i: nat): real
    requires i < |s.dst|
  {
    if i == 0 then 0.0 else s.dst[i - 1].share
  }

  ghost predicate Owns(s: State, i: nat, x: real)
    requires i < |s.dst|
  {
    Low(s, i) <= x < s.dst[i].share
  }

  lemma {:induction false} GoodWeightGrows(s: State, m: nat, n: nat)
    requires Usable(s) && m <= n <= |s.dst|
    ensures 0.0 <= GoodWeight(s, m) <= GoodWeight(s, n)
    decreases n
  {
    if m < n {
      GoodWeightGrows(s, m, n - 1);
    } else if m > 0 {
      GoodWeightGrows(s, m - 1, n - 1);
    }
  }

  /** There is something to divide exactly when some row is eligible. */
  lemma {:induction false} TotalIsPositive(s: State, n: nat)
    requires Usable(s) && n <= |s.dst|
    ensures GoodWeight(s, n) > 0.0 <==> exists i: nat :: i < n && Eligible(s, i)
    decreases n
  {
    if n > 0 {
      TotalIsPositive(s, n - 1);
      GoodWeightGrows(s, n - 1, n);
      if Eligible(s, n - 1) {
        GoodWeightGrows(s, 0, n - 1);
        assert GoodWeight(s, n) > 0.0;
      }
    }
  }

  /** Dividing by a positive total keeps order and scales differences. */
  lemma Scale(a: real, b: real, total: real)
    requires total > 0.0
    ensures a <= b <==> a / total <= b / total
    ensures b / total - a / total == (b - a) / total
    ensures total / total == 1.0
  {
  }

  lemma SharesAre(s: State, i: nat)
    requires i < |s.dst| && GoodWeight(s, |s.dst|) > 0.0
    ensures RedoMap(s).dst[i].share == GoodWeight(s, i + 1) / GoodWeight(s, |s.dst|)
    ensures Low(RedoMap(s), i) == GoodWeight(s, i) / GoodWeight(s, |s.dst|)
  {
  }

  /** Row `i` owns an interval as long as its part of the total weight (nothing
      when it is not eligible), starting where the row before ends. */
  lemma MapPartition(s: State, i: nat)
    requires Usable(s) && i < |s.dst| && GoodWeight(s, |s.dst|) > 0.0
    ensures RedoMap(s).dst[i].share - Low(RedoMap(s), i) == OwnWeight(s, i) / GoodWeight(s, |s.dst|)
  {
    SharesAre(s, i);
    Difference(RedoMap(s).dst[i].share, Low(RedoMap(s), i),
               GoodWeight(s, i), OwnWeight(s, i), GoodWeight(s, i + 1), GoodWeight(s, |s.dst|));
  }

  lemma Difference(share: real, low: real, a: real, own: real, b: real, total: real)
    requires total > 0.0 && b == a + own && share == b / total && low == a / total
    ensures share - low == own / total
  {
  }

  /** The intervals lie in [0, 1] and do not shrink below nothing. */
  lemma MapInOrder(s: State, i: nat)
    requires Usable(s) && i < |s.dst| && GoodWeight(s, |s.dst|) > 0.0
    ensures 0.0 <= Low(RedoMap(s), i) <= RedoMap(s).dst[i].share <= 1.0
  {
    GoodWeightGrows(s, 0, i);
    GoodWeightGrows(s, i, i + 1);
    GoodWeightGrows(s, i + 1, |s.dst|);
    SharesAre(s, i);
    Order(RedoMap(s).dst[i].share, Low(RedoMap(s), i),
          GoodWeight(s, i), GoodWeight(s, i + 1), GoodWeight(s, |s.dst|));
  }

  lemma Order(share: real, low: real, a: real, b: real, total: real)
    requires 0.0 <= a <= b <= total && total > 0.0 && share == b / total && low == a / total
    ensures 0.0 <= low <= share <= 1.0
  {
    Scale(a, b, total);
    Scale(0.0, a, total);
    Scale(b, total, total);
  }

  /** The last interval ends at 1. */
  lemma MapEndsAtOne(s: State)
    requires GoodWeight(s, |s.dst|) > 0.0
    ensures |s.dst| > 0 && RedoMap(s).dst[|s.dst| - 1].share == 1.0
  {
    SharesAre(s, |s.dst| - 1);
    Scale(0.0, 0.0, GoodWeight(s, |s.dst|));
  }

  lemma {:induction false} SharesGrow(s: State, i: nat, j: nat)
    requires Usable(s) && i <= j < |s.dst| && GoodWeight(s, |s.dst|) > 0.0
    ensures RedoMap(s).dst[i].share <= RedoMap(s).dst[j].share
    decreases j - i
  {
    if i < j {
      SharesGrow(s, i, j - 1);
      MapInOrder(s, j);
    }
  }

  /** No point of [0, 1) has two owners. */
  lemma OwnerIsUnique(s: State, i: nat, j: nat, x: real)
    requires Usable(s) && i < j < |s.dst| && GoodWeight(s, |s.dst|) > 0.0
    ensures !(Owns(RedoMap(s), i, x) && Owns(RedoMap(s), j, x))
  {
    SharesGrow(s, i, j - 1);
  }

  /** The lookup scan from row `i`, when no earlier row reaches beyond the point. */
  lemma {:induction false} LookupScan(s: State, i: nat, x: real, probe: nat -> Probe)
    requires Usable(s) && i < |s.dst| && GoodWeight(s, |s.dst|) > 0.0
    requires 0.0 <= x < 1.0 && Low(RedoMap(s), i) <= x
    ensures var t := RedoMap(s);
            var (u, r) := HintScan(t, i, x, 0, probe);
            u == t && r.Some? && r.value < |s.dst| && Owns(t, r.value, x)
    decreases |s.dst| - i
  {
    var t := RedoMap(s);
    MapInOrder(s, i);
    if x < t.dst[i].share {
      assert t.dst[i := t.dst[i]] == t.dst;
    } else {
      MapEndsAtOne(s);
      LookupScan(s, i + 1, x, probe);
    }
  }

  /** A point of [0, 1) is answered by its owner, which is eligible. */
  lemma LookupFindsOwner(s: State, x: real, probe: nat -> Probe)
    requires Usable(s) && GoodWeight(s, |s.dst|) > 0.0 && 0.0 <= x < 1.0
    ensures var t := RedoMap(s);
            var (u, r) := HintScan(t, 0, x, 0, probe);
            u == t && r.Some? && r.value < |s.dst| && Owns(t, r.value, x) && Eligible(s, r.value)
  {
    assert |s.dst| > 0;
    LookupScan(s, 0, x, probe);
    var i := HintScan(RedoMap(s), 0, x, 0, probe).1.value;
    MapPartition(s, i);
  }

  // -------------------------------------------------------- points from hints

  /** The protection term keeps every point below 1 but makes the first five
      hints negative. */
  lemma PointRange(hint: Hint)
    ensures Point(hint) < 1.0
    ensures Point(hint) >= 0.0 <==> hint >= 5
  {
    var h := hint as real;
    assert h / 4294967295.0 <= 1.0;
  }

  /** Hints are spread evenly: from the first to the last their points span one. */
  lemma PointSpacing(h: Hint, k: Hint)
    ensures (Point(k) - Point(h)) * 4294967295.0 == k as real - h as real
    ensures Point(0xFFFF_FFFF) - Point(0) == 1.0
  {
  }

  /** A negative point is always answered by row 0. */
  lemma NegativePoint(s: State, x: real, probe: nat -> Probe)
    requires Usable(s) && |s.dst| > 0 && x < 0.0
    ensures HintScan(RedoMap(s), 0, x, 0, probe) == (RedoMap(s), Some(0))
  {
    var t := RedoMap(s);
    GoodWeightGrows(s, 0, |s.dst|);
    if GoodWeight(s, |s.dst|) > 0.0 {
      MapInOrder(s, 0);
    }
    assert t.dst[0].share >= 0.0;
    assert t.dst[0 := t.dst[0]] == t.dst;
  }

  lemma {:induction false} NothingShared(s: State, i: nat, x: real, probe: nat -> Probe)
    requires Usable(s) && i <= |s.dst| && GoodWeight(s, |s.dst|) == 0.0 && x >= 0.0
    ensures HintScan(RedoMap(s), i, x, 0, probe) == (RedoMap(s), None)
    decreases |s.dst| - i
  {
    if i < |s.dst| {
      TotalIsPositive(s, |s.dst|);
      NothingShared(s, i + 1, x, probe);
    }
  }

  /** The lookup of a hint meets its promise - an eligible destination when there
      is one, none otherwise - if and only if the hint is at least 5 or row 0 is
      eligible. */
  ghost predicate MeetsPromise(s: State, r: Option<nat>) {
    if r.Some? then r.value < |s.dst| && Eligible(s, r.value)
    else forall i: nat :: i < |s.dst| ==> !Eligible(s, i)
  }

  lemma HintPromise(s: State, hint: Hint, probe: nat -> Probe)
    requires Usable(s) && |s.dst| > 0
    ensures MeetsPromise(s, HintScan(RedoMap(s), 0, Point(hint), 0, probe).1) <==> hint >= 5 || Eligible(s, 0)
  {
    PointRange(hint);
    TotalIsPositive(s, |s.dst|);
    GoodWeightGrows(s, 0, |s.dst|);
    if hint < 5 {
      NegativePoint(s, Point(hint), probe);
    } else if GoodWeight(s, |s.dst|) > 0.0 {
      LookupFindsOwner(s, Point(hint), probe);
    } else {
      NothingShared(s, 0, Point(hint), probe);
    }
  }

  // ------------------------------------------------ when the map is redone

  /** Without probing a lookup reads nothing but the rows. */
  lemma {:induction false} LookupReadsRows(t: State, u: State, i: nat, x: real, probe: nat -> Probe)
    requires t.dst == u.dst && i <= |t.dst|
    ensures HintScan(t, i, x, 0, probe).1 == HintScan(u, i, x, 0, probe).1
    decreases |t.dst| - i
  {
    if i < |t.dst| {
      assert CheckAt(t, i, 0, probe(i)).dst == t.dst && CheckAt(u, i, 0, probe(i)).dst == u.dst;
      LookupReadsRows(t, u, i + 1, x, probe);
    }
  }

  /** Once the retry time has passed since a failure redid the map, the next choice
      redoes it over the destinations usable then: the promise of `HintPromise` holds of
      that choice.  One that is still out then is not looked at again (`Recovery`). */
  lemma RecoversAfterRetry(p: State, cnf: Config, hint: Hint, probe: nat -> Probe)
    requires Usable(p) && |p.dst| > 0 && UsesMap(cnf) && cnf.extra == 0
    requires p.mapFailed != 0 && p.ctx.now - p.mapFailed > p.ctx.retry
    ensures MeetsPromise(p, ChooseHint(p, cnf, hint, probe).1) <==> hint >= 5 || Eligible(p, 0)
    ensures ChooseHint(p, cnf, hint, probe).0.mapFailed == 0
  {
    HintPromise(p, hint, probe);
    LookupReadsRows(RedoMap(p).(mapFailed := 0), RedoMap(p), 0, Point(hint), probe);
    LookupKeepsStamp(RedoMap(p).(mapFailed := 0), 0, Point(hint), probe);
  }

  lemma {:induction false} LookupKeepsStamp(t: State, i: nat, x: real, probe: nat -> Probe)
    requires i <= |t.dst|
    ensures HintScan(t, i, x, 0, probe).0.mapFailed == t.mapFailed
    decreases |t.dst| - i
  {
    if i < |t.dst| {
      LookupKeepsStamp(t, i + 1, x, probe);
      LookupKeepsStamp(CheckAt(t, i, 0, probe(i)), i + 1, x, probe);
    }
  }

  /** A destination that fails while in use loses its part at once: no lookup that
      follows returns it, unless it is row 0 and the hint is one of the first five. */
  lemma FailedIsNotLookedUp(s: State, cnf: Config, i: nat, now: int, hint: Hint, probe: nat -> Probe)
    requires WellFormed(s) && Usable(s) && i < |s.dst| && UsesMap(cnf) && hint >= 5
    requires Good(s.dst[i], s.ctx.minWeight, Context(0.0, RetryInterval(cnf), now))
    ensures HintScan(DstFailed(s, cnf, i, now), 0, Point(hint), 0, probe).1 != Some(i)
  {
    var s1 := s.(ctx := s.ctx.(now := now, retry := RetryInterval(cnf)));
    var s2 := s1.(dst := s1.dst[i := s1.dst[i].(failed := now)]);
    assert Eligible(s1, i);
    var s3 := if s.top == Some(i) then RedoTop(s2.(ctx := s2.ctx.(minWeight := EPS))).(topFailed := now) else s2;
    FailedState(s2, s.top == Some(i), now);
    var t := DstFailed(s, cnf, i, now);
    assert t.dst == RedoMap(s3).dst;
    LookupReadsRows(t, RedoMap(s3), 0, Point(hint), probe);
    HintPromise(s3, hint, probe);
    assert !GoodBase(s3.dst[i], s3.ctx);
  }

  lemma FailedState(s2: State, isTop: bool, now: int)
    requires WellFormed(s2) && Usable(s2)
    ensures var s3 := if isTop then RedoTop(s2.(ctx := s2.ctx.(minWeight := EPS))).(topFailed := now) else s2;
            s3.dst == s2.dst && Usable(s3) && s3.ctx.now == s2.ctx.now && s3.ctx.retry == s2.ctx.retry
  {
    TopScanShape(s2.(ctx := s2.ctx.(minWeight := EPS)), 0);
    TopScanMin(s2.(ctx := s2.ctx.(minWeight := EPS)), 0);
  }
}
