/** The random and source-tracking policies over time.  A lookup reads a map that may
    be old; without top-weighting and probing, and with a clock that does not go
    back, every destination that still has a part of it is usable all the same. */
module FreshMap {
  import opened RouterState
  import opened RouterInvariant
  import opened WeightMap

  /** Configurations in which only the map decides. */
  predicate MapDecides(cnf: Config) {
    UsesMap(cnf) && !cnf.top && cnf.extra == 0
  }

  /** Row `i`'s part of the map is not negative, and is empty unless the row is usable
      at time `clock`. */
  ghost predicate PartOk(s: State, i: nat, cnf: Config, clock: int)
    requires i < |s.dst|
  {
    && Low(s, i) <= s.dst[i].share
    && (Low(s, i) < s.dst[i].share ==> Good(s.dst[i], EPS, Context(EPS, RetryInterval(cnf), clock)))
  }

  ghost predicate Fresh(s: State, cnf: Config, clock: int) {
    && (|s.dst| > 0 ==> s.ctx.minWeight == EPS)
    && forall i: nat :: i < |s.dst| ==> PartOk(s, i, cnf, clock)
  }

  lemma FreshLater(s: State, cnf: Config, clock: int, now: int)
    requires Fresh(s, cnf, clock) && clock <= now
    ensures Fresh(s, cnf, now)
  {
    forall i: nat | i < |s.dst| ensures PartOk(s, i, cnf, now) { assert PartOk(s, i, cnf, clock); }
  }

  /** Only weights, failure stamps and shares matter. */
  lemma FreshRows(s: State, t: State, cnf: Config, clock: int)
    requires Fresh(s, cnf, clock) && |t.dst| == |s.dst| && t.ctx.minWeight == s.ctx.minWeight
    requires forall i :: 0 <= i < |s.dst| ==>
               && t.dst[i].share == s.dst[i].share && t.dst[i].weight == s.dst[i].weight
               && t.dst[i].failed == s.dst[i].failed
    ensures Fresh(t, cnf, clock)
  {
    forall i: nat | i < |t.dst| ensures PartOk(t, i, cnf, clock) { assert PartOk(s, i, cnf, clock); }
  }

  // ------------------------------------------------------ every step keeps it

  lemma RedonePart(s: State, cnf: Config, i: nat)
    requires s.ctx.minWeight == EPS && s.ctx.retry == RetryInterval(cnf) && i < |s.dst|
    ensures PartOk(RedoMap(s), i, cnf, s.ctx.now)
  {
    GoodWeightGrows(s, 0, |s.dst|);
    TotalIsPositive(s, |s.dst|);
    if GoodWeight(s, |s.dst|) > 0.0 {
      MapInOrder(s, i);
      MapPartition(s, i);
    }
  }

  lemma RedoneIsFresh(s: State, cnf: Config)
    requires s.ctx.minWeight == EPS && s.ctx.retry == RetryInterval(cnf)
    ensures Fresh(RedoMap(s), cnf, s.ctx.now)
  {
    forall i: nat | i < |s.dst| ensures PartOk(RedoMap(s), i, cnf, s.ctx.now) { RedonePart(s, cnf, i); }
  }

  /** A row that fails while usable loses its part with the map redone; one that is
      not usable had none. */
  lemma FailedFresh(s: State, cnf: Config, i: nat, clock: int, now: int)
    requires Fresh(s, cnf, clock) && clock <= now && MapDecides(cnf) && WellFormed(s) && s.top.None? && i < |s.dst|
    ensures Fresh(DstFailed(s, cnf, i, now), cnf, now)
  {
    var s1 := s.(ctx := s.ctx.(now := now, retry := RetryInterval(cnf)));
    var s2 := s1.(dst := s1.dst[i := s1.dst[i].(failed := now)]);
    FreshLater(s, cnf, clock, now);
    if Eligible(s1, i) {
      RedoneIsFresh(s2, cnf);
      FreshRows(RedoMap(s2), RedoMap(s2).(mapFailed := now), cnf, now);
    } else {
      forall j: nat | j < |s2.dst| ensures PartOk(s2, j, cnf, now) { assert PartOk(s, j, cnf, now); }
    }
  }

  lemma RefreshFresh(s: State, cnf: Config, now: int)
    requires WellFormed(s) && s.top.None? && MapDecides(cnf)
    ensures Fresh(Refresh(s, cnf, now), cnf, now)
  {
    RedoneIsFresh(UpdateCtx(s, cnf, now), cnf);
  }

  lemma {:induction false} LookupChangesNothing(t: State, i: nat, x: real, probe: nat -> Probe)
    requires i <= |t.dst|
    ensures HintScan(t, i, x, 0, probe).0 == t
    decreases |t.dst| - i
  {
    if i < |t.dst| {
      assert CheckAt(t, i, 0, probe(i)) == t by { assert t.dst[i := t.dst[i]] == t.dst; }
      LookupChangesNothing(t, i + 1, x, probe);
    }
  }

  /** The state a choice looks its point up in. */
  ghost function LookedUp(s: State, cnf: Config, now: int): State
    requires WellFormed(s)
  {
    if |s.dst| == 0 then Prepared(s, cnf, now) else MapFreshened(Prepared(s, cnf, now), cnf)
  }

  lemma LookedUpFresh(s: State, cnf: Config, clock: int, now: int)
    requires Fresh(s, cnf, clock) && clock <= now && MapDecides(cnf) && WellFormed(s) && s.top.None?
    ensures Fresh(LookedUp(s, cnf, now), cnf, now) && |LookedUp(s, cnf, now).dst| == |s.dst|
  {
    var p := Prepared(s, cnf, now);
    FreshLater(s, cnf, clock, now);
    if |s.dst| > 0 { FreshRows(s, p, cnf, now); }
    if |s.dst| > 0 && p.mapFailed != 0 && p.ctx.now - p.mapFailed > p.ctx.retry {
      RedoneIsFresh(p, cnf);
      FreshRows(RedoMap(p), LookedUp(s, cnf, now), cnf, now);
    }
  }

  function PointOf(cnf: Config, d: Draw): real {
    Point(if cnf.policy.Random? then d.random else d.hint)
  }

  lemma PickIsLookup(s: State, cnf: Config, d: Draw)
    requires MapDecides(cnf) && WellFormed(s)
    ensures WellFormed(Prepared(s, cnf, d.now))
    ensures Pick(Prepared(s, cnf, d.now), cnf, d) ==
            HintScan(LookedUp(s, cnf, d.now), 0, PointOf(cnf, d), 0, d.probe)
  {
    PreparedWellFormed(s, cnf, d.now);
  }

  lemma ChooseFresh(s: State, cnf: Config, d: Draw, clock: int)
    requires Fresh(s, cnf, clock) && clock <= d.now && MapDecides(cnf) && WellFormed(s) && s.top.None?
    ensures Fresh(Choose(s, cnf, d).0, cnf, d.now)
  {
    LookedUpFresh(s, cnf, clock, d.now);
    PickIsLookup(s, cnf, d);
    LookupChangesNothing(LookedUp(s, cnf, d.now), 0, PointOf(cnf, d), d.probe);
    FreshRows(LookedUp(s, cnf, d.now), Choose(s, cnf, d).0, cnf, d.now);
  }

  lemma DisconnectFresh(s: State, cnf: Config, a: Addr, failed: bool, clock: int, now: int)
    requires Fresh(s, cnf, clock) && clock <= now && MapDecides(cnf) && Inv(s, cnf) && MayDisconnect(s, a)
    ensures Fresh(Disconnect(s, cnf, a, failed, now).0, cnf, now)
  {
    FreshLater(s, cnf, clock, now);
    var i := Index(s.dst, a);
    if i < |s.dst| {
      FreshRows(s, Released(s, i), cnf, now);
      FailedFresh(Released(s, i), cnf, i, now, now);
    }
  }

  lemma ChooseAgainFresh(s: State, cnf: Config, a: Addr, now: int, d: Draw, clock: int)
    requires Fresh(s, cnf, clock) && clock <= now <= d.now && MapDecides(cnf) && Inv(s, cnf) && MayDisconnect(s, a)
    ensures Fresh(ChooseAgain(s, cnf, a, now, d).0, cnf, d.now)
  {
    DisconnectFresh(s, cnf, a, true, clock, now);
    DisconnectRefines(s, cnf, a, true, now);
    ChooseFresh(Disconnect(s, cnf, a, true, now).0, cnf, d, now);
  }

  lemma ChangeFresh(s: State, cnf: Config, c: Change, clock: int)
    requires Fresh(s, cnf, clock) && clock <= c.now && MapDecides(cnf) && Inv(s, cnf)
    ensures Fresh(ChangeDst(s, cnf, c).0, cnf, c.now)
  {
    FreshLater(s, cnf, clock, c.now);
    var i := Index(s.dst, c.addr);
    if i == |s.dst| {
      if c.weight >= 0.0 {
        RefreshFresh(Appended(s, c.addr, c.weight, c.probed, c.nowNs, c.junk), cnf, c.now);
      }
    } else if c.weight < 0.0 {
      RemovedWellFormed(s, i);
      RefreshFresh(Removed(s, i), cnf, c.now);
    } else {
      RefreshFresh(Reweighted(s, i, c.weight), cnf, c.now);
    }
  }

  // ------------------------------------------------------------- whole runs

  /** The first and the last reading of the clock in an operation. */
  function Starts(op: Op): int {
    match op
    case DoChange(c) => c.now
    case DoChoose(d) => d.now
    case DoDisconnect(_, _, now) => now
    case DoChooseAgain(_, now, _) => now
  }

  function Ends(op: Op): int {
    match op
    case DoChooseAgain(_, _, d) => d.now
    case _ => Starts(op)
  }

  lemma StepFresh(s: State, cnf: Config, op: Op, clock: int)
    requires Fresh(s, cnf, clock) && clock <= Starts(op) <= Ends(op) && MapDecides(cnf) && Inv(s, cnf) && Enabled(s, op)
    ensures Fresh(Apply(s, cnf, op), cnf, Ends(op))
  {
    match op
    case DoChange(c) => ChangeFresh(s, cnf, c, clock);
    case DoChoose(d) => ChooseFresh(s, cnf, d, clock);
    case DoDisconnect(a, failed, now) => DisconnectFresh(s, cnf, a, failed, clock, now);
    case DoChooseAgain(a, now, d) => ChooseAgainFresh(s, cnf, a, now, d, clock);
  }

  /** The clock does not go back. */
  ghost predicate InOrder(ops: seq<Op>) {
    && (forall k :: 0 <= k < |ops| ==> Starts(ops[k]) <= Ends(ops[k]))
    && forall k :: 0 < k < |ops| ==> Ends(ops[k - 1]) <= Starts(ops[k])
  }

  /** In every run from the empty router the map is fresh at the latest reading. */
  lemma {:induction false} RunIsFresh(run: seq<State>, cnf: Config, ops: seq<Op>, k: nat)
    requires IsRun(run, cnf, ops) && InOrder(ops) && MapDecides(cnf) && 0 < k < |run|
    ensures Inv(run[k], cnf) && Fresh(run[k], cnf, Ends(ops[k - 1]))
  {
    RunRefines(run, cnf, ops);
    var clock := Starts(ops[k - 1]);
    if k > 1 {
      RunIsFresh(run, cnf, ops, k - 1);
      clock := Ends(ops[k - 2]);
    }
    StepFresh(run[k - 1], cnf, ops[k - 1], clock);
  }

  // -------------------------------------------------------------- lookups

  lemma {:induction false} LookupOwns(s: State, i: nat, x: real, probe: nat -> Probe)
    requires i <= |s.dst| && (i < |s.dst| ==> Low(s, i) <= x)
    ensures var r := HintScan(s, i, x, 0, probe).1; r.Some? ==> r.value < |s.dst| && Owns(s, r.value, x)
    decreases |s.dst| - i
  {
    if i < |s.dst| && !(x < s.dst[i].share) {
      LookupOwns(s, i + 1, x, probe);
    }
  }

  /** From a hint of at least 5 a fresh map yields usable destinations only. */
  lemma ChosenIsUsable(s: State, cnf: Config, d: Draw, clock: int)
    requires Fresh(s, cnf, clock) && clock <= d.now && MapDecides(cnf) && Inv(s, cnf) && PointOf(cnf, d) >= 0.0
    ensures var r := Choose(s, cnf, d).1;
            r.Some? ==> r.value < |s.dst| && Good(s.dst[r.value], EPS, Context(EPS, RetryInterval(cnf), d.now))
  {
    var p := LookedUp(s, cnf, d.now);
    LookedUpFresh(s, cnf, clock, d.now);
    PickIsLookup(s, cnf, d);
    LookupOwns(p, 0, PointOf(cnf, d), d.probe);
    var r := Choose(s, cnf, d).1;
    if r.Some? {
      assert PartOk(p, r.value, cnf, d.now);
      PreparedWellFormed(s, cnf, d.now);
    }
  }

  /** So in every such run, a choice from a hint of at least 5 goes to a destination
      of positive weight that has not failed within the retry interval. */
  lemma RunChoosesUsable(run: seq<State>, cnf: Config, ops: seq<Op>, k: nat)
    requires IsRun(run, cnf, ops) && InOrder(ops) && MapDecides(cnf) && k < |ops| && ops[k].DoChoose?
    requires PointOf(cnf, ops[k].d) >= 0.0
    ensures WellFormed(run[k])
    ensures var r := Choose(run[k], cnf, ops[k].d).1;
            r.Some? ==> && r.value < |run[k].dst|
                        && Good(run[k].dst[r.value], EPS, Context(EPS, RetryInterval(cnf), ops[k].d.now))
  {
    RunRefines(run, cnf, ops);
    if k > 0 {
      RunIsFresh(run, cnf, ops, k);
      ChosenIsUsable(run[k], cnf, ops[k].d, Ends(ops[k - 1]));
    }
  }

  // -------------------------------------------- why the hypotheses are needed

  /** A row with a part of the map that fails keeps that part if and only if it was not
      eligible when it failed. */
  lemma FailureClearsPart(s: State, cnf: Config, i: nat, now: int)
    requires WellFormed(s) && Usable(s) && UsesMap(cnf) && i < |s.dst| && Low(s, i) < s.dst[i].share
    ensures var t := DstFailed(s, cnf, i, now);
            |t.dst| == |s.dst| && (Low(t, i) < t.dst[i].share
                                   <==> !Good(s.dst[i], s.ctx.minWeight, Context(0.0, RetryInterval(cnf), now)))
  {
    var s1 := s.(ctx := s.ctx.(now := now, retry := RetryInterval(cnf)));
    var s2 := s1.(dst := s1.dst[i := s1.dst[i].(failed := now)]);
    FailedState(s2, s.top == Some(i), now);
    if Eligible(s1, i) {
      var s3 := if s.top == Some(i) then RedoTop(s2.(ctx := s2.ctx.(minWeight := EPS))).(topFailed := now) else s2;
      assert !Eligible(s3, i) && DstFailed(s, cnf, i, now).dst == RedoMap(s3).dst;
      NoPartOf(s3, i);
    }
  }

  lemma NoPartOf(s: State, i: nat)
    requires Usable(s) && i < |s.dst| && !Eligible(s, i)
    ensures Low(RedoMap(s), i) == RedoMap(s).dst[i].share
  {
    GoodWeightGrows(s, 0, |s.dst|);
    TotalIsPositive(s, |s.dst|);
    if GoodWeight(s, |s.dst|) > 0.0 {
      MapPartition(s, i);
    }
  }

  /** One attempt at `row` fails and the next choice is `row` again. */
  ghost predicate ChosenTwice(s: State, cnf: Config, d: Draw, row: nat) {
    && Inv(s, cnf)
    && var (t, r) := Choose(s, cnf, d);
       && r == Some(row) && WellFormed(t) && row < |t.dst| && t.dst[row].conns > 0
       && var u := DstFailed(Released(t, row), cnf, row, d.now);
          WellFormed(u) && Choose(u, cnf, d).1 == Some(row)
  }
}
