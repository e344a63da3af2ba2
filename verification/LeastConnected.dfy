/** The least-connected policy: the scan is an argmax of usage, and repeated
    choices divide connections in proportion to weight. */
module LeastConnected {
  import opened RouterState
  import opened RouterInvariant

  // ---------------------------------------------------------- the argmax

  /** `best` is the first of the most usable eligible rows among the first `n`. */
  ghost predicate BestOf(s: State, n: nat, best: Option<nat>)
    requires n <= |s.dst|
  {
    match best
    case None => forall j: nat :: j < n && Eligible(s, j) ==> s.dst[j].usage <= 0.0
    case Some(i) =>
      && i < n && Eligible(s, i) && s.dst[i].usage > 0.0
      && forall j: nat :: j < n && Eligible(s, j) ==>
           if j < i then s.dst[j].usage < s.dst[i].usage else s.dst[j].usage <= s.dst[i].usage
  }

  lemma {:induction false} LeastScanIsBest(s: State, n: nat, best: Option<nat>)
    requires n <= |s.dst| && BestOf(s, n, best)
    ensures BestOf(s, |s.dst|, LeastScan(s, n, best))
    decreases |s.dst| - n
  {
    if n < |s.dst| {
      var bar := if best.Some? then s.dst[best.value].usage else 0.0;
      var best' := if s.dst[n].usage > bar && Eligible(s, n) then Some(n) else best;
      assert BestOf(s, n + 1, best');
      LeastScanIsBest(s, n + 1, best');
    }
  }

  // ---------------------------------------------------- runs of choices only

  ghost predicate AllGoodAt(s: State, cnf: Config, now: int) {
    forall i :: 0 <= i < |s.dst| ==> now - s.dst[i].failed > RetryInterval(cnf)
  }

  /** Least-connected balancing with every destination in play: no --top, no
      extra probing, every weight usable and no failure within the retry time. */
  ghost predicate IsLeastRun(run: seq<State>, cnf: Config, draws: seq<Draw>) {
    && cnf.policy.Least? && !cnf.top && cnf.extra == 0
    && |run| == |draws| + 1
    && Inv(run[0], cnf)
    && (forall i :: 0 <= i < |run[0].dst| ==> run[0].dst[i].weight >= EPS && run[0].dst[i].conns == 0)
    && (forall k :: 0 <= k < |draws| ==>
         WellFormed(run[k]) && AllGoodAt(run[0], cnf, draws[k].now)
         && run[k + 1] == Choose(run[k], cnf, draws[k]).0)
  }

  /** `e` is not ahead of `f` by more than the connection it took last. */
  ghost predicate FairPair(e: Entry, f: Entry) {
    e.conns as real * f.weight <= e.weight * (f.conns + 1) as real
  }

  ghost predicate Fair(dst: seq<Entry>) {
    forall i, j {:trigger FairPair(dst[i], dst[j])} ::
      0 <= i < |dst| && 0 <= j < |dst| ==> FairPair(dst[i], dst[j])
  }

  lemma CrossMultiply(a: real, b: nat, c: real, d: nat)
    requires Usage(a, b) <= Usage(c, d)
    ensures a * (d + 1) as real <= c * (b + 1) as real
  {
    var x, y := (b + 1) as real, (d + 1) as real;
    assert a == (a / x) * x && c == (c / y) * y;
    assert (a / x) * (x * y) <= (c / y) * (x * y);
  }

  /** What one choice does when every destination is eligible. */
  lemma ChoiceIsBest(s: State, cnf: Config, d: Draw)
    requires Inv(s, cnf) && cnf.policy.Least? && !cnf.top && cnf.extra == 0
    requires AllGoodAt(s, cnf, d.now) && |s.dst| > 0
    requires forall i :: 0 <= i < |s.dst| ==> s.dst[i].weight >= EPS
    ensures var (t, r) := Choose(s, cnf, d);
            && r.Some? && r.value < |s.dst|
            && t.dst == s.dst[r.value := WithConns(s.dst[r.value], s.dst[r.value].conns + 1)]
            && (forall j :: 0 <= j < |s.dst| ==> s.dst[j].usage <= s.dst[r.value].usage)
  {
    var p := Prepared(s, cnf, d.now);
    assert p.ctx == Context(EPS, RetryInterval(cnf), d.now) && p.dst == s.dst;
    LeastScanIsBest(p, 0, None);
    var r := LeastScan(p, 0, None);
    assert UsageOk(s.dst[0]);
    assert Eligible(p, 0) && s.dst[0].usage > 0.0;
    assert p.dst[r.value := p.dst[r.value]] == p.dst;
  }

  lemma PairAfterChoice(e: Entry, f: Entry)
    requires e.weight > 0.0 && f.weight > 0.0
    requires Usage(f.weight, f.conns) <= Usage(e.weight, e.conns)
    ensures FairPair(WithConns(e, e.conns + 1), f)
    ensures FairPair(f, e) ==> FairPair(f, WithConns(e, e.conns + 1))
  {
    CrossMultiply(f.weight, f.conns, e.weight, e.conns);
    assert f.weight * (e.conns + 2) as real == f.weight * (e.conns + 1) as real + f.weight;
  }

  lemma PairWithSelf(e: Entry)
    requires e.weight >= 0.0
    ensures FairPair(e, e)
  {
    assert e.weight * (e.conns + 1) as real == e.weight * e.conns as real + e.weight;
  }

  lemma StepKeepsFair(dst: seq<Entry>, i: nat)
    requires Fair(dst) && i < |dst|
    requires forall j :: 0 <= j < |dst| ==> dst[j].weight > 0.0 && UsageOk(dst[j])
    requires forall j :: 0 <= j < |dst| ==> dst[j].usage <= dst[i].usage
    ensures Fair(dst[i := WithConns(dst[i], dst[i].conns + 1)])
  {
    var d' := dst[i := WithConns(dst[i], dst[i].conns + 1)];
    forall a, b | 0 <= a < |dst| && 0 <= b < |dst|
      ensures FairPair(d'[a], d'[b])
    {
      assert FairPair(dst[a], dst[b]);
      if a == i && b == i {
        PairWithSelf(d'[i]);
      } else if a == i {
        PairAfterChoice(dst[i], dst[b]);
      } else if b == i {
        PairAfterChoice(dst[i], dst[a]);
      }
    }
  }

  /** Every state of such a run is fair, and state k has k connections. */
  lemma {:induction false} RunIsFair(run: seq<State>, cnf: Config, draws: seq<Draw>)
    requires IsLeastRun(run, cnf, draws) && |run[0].dst| > 0
    ensures forall k :: 0 <= k < |run| ==>
      Fair(run[k].dst) && run[k].conns == k && Inv(run[k], cnf) && |run[k].dst| == |run[0].dst|
  {
    NoConns(run[0].dst);
    StartIsFair(run[0].dst);
    for n := 0 to |draws|
      invariant SameTable(run[0], run[n])
      invariant forall k :: 0 <= k <= n ==>
        Fair(run[k].dst) && run[k].conns == k && Inv(run[k], cnf) && |run[k].dst| == |run[0].dst|
    {
      FairStep(run[0], run[n], cnf, draws[n]);
    }
  }

  ghost predicate SameTable(s: State, t: State) {
    && |t.dst| == |s.dst|
    && forall i :: 0 <= i < |s.dst| ==> t.dst[i].weight == s.dst[i].weight && t.dst[i].failed == s.dst[i].failed
  }

  lemma FairStep(s: State, t: State, cnf: Config, d: Draw)
    requires cnf.policy.Least? && !cnf.top && cnf.extra == 0
    requires SameTable(s, t) && AllGoodAt(s, cnf, d.now) && |s.dst| > 0
    requires forall i :: 0 <= i < |s.dst| ==> s.dst[i].weight >= EPS
    requires Inv(t, cnf) && Fair(t.dst)
    ensures var u := Choose(t, cnf, d).0;
            Inv(u, cnf) && Fair(u.dst) && SameTable(s, u) && u.conns == t.conns + 1
  {
    ChooseRefines(t, cnf, d);
    ChoiceIsBest(t, cnf, d);
    BestStepIsFair(s, t, cnf, Choose(t, cnf, d).1.value);
  }

  lemma BestStepIsFair(s: State, t: State, cnf: Config, i: nat)
    requires SameTable(s, t) && Inv(t, cnf) && Fair(t.dst) && i < |t.dst|
    requires forall j :: 0 <= j < |s.dst| ==> s.dst[j].weight >= EPS
    requires forall j :: 0 <= j < |t.dst| ==> t.dst[j].usage <= t.dst[i].usage
    ensures Fair(t.dst[i := WithConns(t.dst[i], t.dst[i].conns + 1)])
  {
    forall j | 0 <= j < |t.dst|
      ensures t.dst[j].weight > 0.0 && UsageOk(t.dst[j])
    {
    }
    StepKeepsFair(t.dst, i);
  }

  lemma StartIsFair(dst: seq<Entry>)
    requires forall i :: 0 <= i < |dst| ==> dst[i].conns == 0 && dst[i].weight >= EPS
    ensures Fair(dst)
  {
    forall i, j | 0 <= i < |dst| && 0 <= j < |dst|
      ensures FairPair(dst[i], dst[j])
    {
      assert dst[i].conns as real == 0.0 && (dst[j].conns + 1) as real == 1.0;
    }
  }

  lemma {:induction false} NoConns(dst: seq<Entry>)
    requires forall i :: 0 <= i < |dst| ==> dst[i].conns == 0
    ensures TotalConns(dst) == 0
    decreases |dst|
  {
    if dst != [] {
      NoConns(dst[..|dst| - 1]);
    }
  }

  // ------------------------------------------------------- shares of the total

  function TotalWeight(dst: seq<Entry>): real {
    if dst == [] then 0.0 else TotalWeight(dst[..|dst| - 1]) + dst[|dst| - 1].weight
  }

  /** Sum of conns_i * w over the first `n` rows. */
  ghost function ConnsTimes(dst: seq<Entry>, n: nat, w: real): real
    requires n <= |dst|
  {
    if n == 0 then 0.0 else ConnsTimes(dst, n - 1, w) + dst[n - 1].conns as real * w
  }

  /** Sum of weight_i * c over the first `n` rows. */
  ghost function WeightTimes(dst: seq<Entry>, n: nat, c: real): real
    requires n <= |dst|
  {
    if n == 0 then 0.0 else WeightTimes(dst, n - 1, c) + dst[n - 1].weight * c
  }

  lemma Distribute(x: real, y: real, z: real)
    ensures (x + y) * z == x * z + y * z
  {
  }

  lemma {:induction false} ConnsTimesIs(dst: seq<Entry>, n: nat, w: real)
    requires n <= |dst|
    ensures ConnsTimes(dst, n, w) == TotalConns(dst[..n]) as real * w
    decreases n
  {
    if n > 0 {
      assert dst[..n][..n - 1] == dst[..n - 1];
      ConnsTimesIs(dst, n - 1, w);
      Distribute(TotalConns(dst[..n - 1]) as real, dst[n - 1].conns as real, w);
    }
  }

  lemma {:induction false} WeightTimesIs(dst: seq<Entry>, n: nat, c: real)
    requires n <= |dst|
    ensures WeightTimes(dst, n, c) == TotalWeight(dst[..n]) * c
    decreases n
  {
    if n > 0 {
      assert dst[..n][..n - 1] == dst[..n - 1];
      WeightTimesIs(dst, n - 1, c);
      Distribute(TotalWeight(dst[..n - 1]), dst[n - 1].weight, c);
    }
  }

  lemma TermWithSpare(e: Entry)
    ensures e.conns as real * e.weight + e.weight == e.weight * (e.conns + 1) as real
  {
    Distribute(e.conns as real, 1.0, e.weight);
  }

  /** Summing `FairPair(f, e)` over the first rows; at e itself one weight is spare. */
  lemma {:induction false} SumLower(dst: seq<Entry>, j: nat, n: nat)
    requires Fair(dst) && j < |dst| && n <= |dst|
    ensures ConnsTimes(dst, n, dst[j].weight) + (if j < n then dst[j].weight else 0.0)
            <= WeightTimes(dst, n, (dst[j].conns + 1) as real)
    decreases n
  {
    if n > 0 {
      SumLower(dst, j, n - 1);
      if j == n - 1 {
        TermWithSpare(dst[j]);
      } else {
        assert FairPair(dst[n - 1], dst[j]);
      }
    }
  }

  /** Summing `FairPair(e, f)` over the first rows. */
  lemma {:induction false} SumUpper(dst: seq<Entry>, j: nat, n: nat)
    requires Fair(dst) && j < |dst| && n <= |dst|
    ensures WeightTimes(dst, n, dst[j].conns as real) + (if j < n then dst[j].weight else 0.0)
            <= ConnsTimes(dst, n, dst[j].weight) + n as real * dst[j].weight
    decreases n
  {
    if n > 0 {
      SumUpper(dst, j, n - 1);
      Distribute((n - 1) as real, 1.0, dst[j].weight);
      if j == n - 1 {
        TermWithSpare(dst[j]);
      } else {
        assert FairPair(dst[j], dst[n - 1]);
        Distribute(dst[n - 1].conns as real, 1.0, dst[j].weight);
      }
    }
  }

  lemma TimesAreTotals(d: seq<Entry>, w: real, c: real)
    ensures ConnsTimes(d, |d|, w) == TotalConns(d) as real * w
    ensures WeightTimes(d, |d|, c) == TotalWeight(d) * c
  {
    assert d[..|d|] == d;
    ConnsTimesIs(d, |d|, w);
    WeightTimesIs(d, |d|, c);
  }

  lemma LowerShare(d: seq<Entry>, j: nat)
    requires Fair(d) && j < |d|
    ensures (TotalConns(d) + 1) as real * d[j].weight <= TotalWeight(d) * (d[j].conns + 1) as real
  {
    SumLower(d, j, |d|);
    TimesAreTotals(d, d[j].weight, (d[j].conns + 1) as real);
    Distribute(TotalConns(d) as real, 1.0, d[j].weight);
  }

  lemma UpperShare(d: seq<Entry>, j: nat)
    requires Fair(d) && j < |d|
    ensures TotalWeight(d) * d[j].conns as real + d[j].weight <= (TotalConns(d) + |d|) as real * d[j].weight
  {
    SumUpper(d, j, |d|);
    TimesAreTotals(d, d[j].weight, d[j].conns as real);
    Distribute(TotalConns(d) as real, |d| as real, d[j].weight);
  }

  /** After k choices every destination has its share of k to within rounding:
      w_j (k + 1) / W - 1  <=  conns_j  <=  w_j (k + n - 1) / W. */
  lemma SharesFollowWeights(run: seq<State>, cnf: Config, draws: seq<Draw>, k: nat, j: nat)
    requires IsLeastRun(run, cnf, draws) && k < |run| && j < |run[0].dst|
    ensures |run[k].dst| == |run[0].dst|
    ensures (k + 1) as real * run[k].dst[j].weight <= TotalWeight(run[k].dst) * (run[k].dst[j].conns + 1) as real
    ensures TotalWeight(run[k].dst) * run[k].dst[j].conns as real + run[k].dst[j].weight
            <= (k + |run[k].dst|) as real * run[k].dst[j].weight
  {
    RunIsFair(run, cnf, draws);
    LowerShare(run[k].dst, j);
    UpperShare(run[k].dst, j);
  }
}
