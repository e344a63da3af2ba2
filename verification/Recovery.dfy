/** Destinations that come back.  The map and the top are looked at again once, when the
    retry time has passed since the last failure that counted.  A destination that is
    still out at that moment is not looked at again: it is stranded without a part of
    the map, or overlooked as the top, although it is usable later. */
module Recovery {
  import opened RouterState
  import opened RouterInvariant
  import opened WeightMap
  import opened TopChoice
  import opened FreshMap

  /** The change goes through to the end of `glb_router_change_dst`, where top and map
      are redone. */
  predicate Redoes(s: State, c: Change) {
    var i := Index(s.dst, c.addr);
    if i == |s.dst| then c.weight >= 0.0 else c.weight < 0.0 || s.dst[i].weight != c.weight
  }

  /** The table before it is redone. */
  ghost function Edited(s: State, c: Change): State
    requires Redoes(s, c)
  {
    var i := Index(s.dst, c.addr);
    if i == |s.dst| then Appended(s, c.addr, c.weight, c.probed, c.nowNs, c.junk)
    else if c.weight < 0.0 then Removed(s, i)
    else Reweighted(s, i, c.weight)
  }

  lemma ChangeIsRedo(s: State, cnf: Config, c: Change)
    requires WellFormed(s)
    ensures Redoes(s, c) ==> WellFormed(Edited(s, c)) && ChangeDst(s, cnf, c).0 == Refresh(Edited(s, c), cnf, c.now)
    ensures Redoes(s, c) ==> Edited(s, c).mapFailed == s.mapFailed && Edited(s, c).topFailed == s.topFailed
    ensures Redoes(s, c) && s.top.None? ==> Edited(s, c).top.None?
    ensures !Redoes(s, c) ==> ChangeDst(s, cnf, c).0 == s
  {
    var i := Index(s.dst, c.addr);
    if i < |s.dst| {
      RemovedWellFormed(s, i);
    }
  }

  /** The failure of row `i` at `now` counts: the row was eligible. */
  predicate FailureCounts(s: State, cnf: Config, i: nat, now: int)
    requires i < |s.dst|
  {
    Good(s.dst[i], s.ctx.minWeight, Context(0.0, RetryInterval(cnf), now))
  }

  // ------------------------------------------------------------------ the map

  predicate MapWithoutTop(cnf: Config) {
    UsesMap(cnf) && !cnf.top
  }

  ghost predicate HasPart(s: State, i: nat)
    requires i < |s.dst|
  {
    Low(s, i) < s.dst[i].share
  }

  /** When no look at the map is due, every destination of positive weight has a part. */
  ghost predicate NobodyStranded(s: State) {
    s.mapFailed == 0 ==> forall i: nat :: i < |s.dst| && s.dst[i].weight >= EPS ==> HasPart(s, i)
  }

  /** A destination of positive weight is still out at `now`. */
  ghost predicate AnyOut(dst: seq<Entry>, now: int, retry: int) {
    exists i: nat :: i < |dst| && dst[i].weight >= EPS && now - dst[i].failed <= retry
  }

  lemma RedoneHasPart(s: State, i: nat)
    requires s.ctx.minWeight >= EPS && i < |s.dst|
    ensures HasPart(RedoMap(s), i) <==> Eligible(s, i)
  {
    if Eligible(s, i) {
      TotalIsPositive(s, |s.dst|);
      MapPartition(s, i);
      Positive(OwnWeight(s, i), GoodWeight(s, |s.dst|));
    } else {
      NoPartOf(s, i);
    }
  }

  lemma Positive(a: real, b: real)
    requires a > 0.0 && b > 0.0
    ensures a / b > 0.0
  {
    var q := a / b;
    assert q * b == a;
    assert q <= 0.0 ==> q * b <= 0.0;
  }

  /** Redoing the map at a moment when no further look is due strands nobody if and only
      if every destination of positive weight is back. */
  lemma RedoneStrands(s: State, t: State)
    requires s.ctx.minWeight == EPS && t.dst == RedoMap(s).dst && t.mapFailed == 0
    ensures NobodyStranded(t) <==> !AnyOut(s.dst, s.ctx.now, s.ctx.retry)
  {
    forall i: nat | i < |s.dst|
      ensures t.dst[i].weight == s.dst[i].weight && (HasPart(t, i) <==> Eligible(s, i))
    {
      RedoneHasPart(s, i);
      assert HasPart(t, i) <==> HasPart(RedoMap(s), i);
    }
    if i: nat :| i < |s.dst| && s.dst[i].weight >= EPS && s.ctx.now - s.dst[i].failed <= s.ctx.retry {
      assert t.dst[i].weight >= EPS && !HasPart(t, i);
    }
  }

  /** With top-weighting the same holds of the destinations that weigh enough. */
  lemma RedoneStrandsTop(s: State)
    requires s.ctx.minWeight >= EPS
    ensures (forall i: nat :: i < |s.dst| && s.dst[i].weight >= s.ctx.minWeight ==> HasPart(RedoMap(s), i)) <==>
            forall i: nat :: i < |s.dst| && s.dst[i].weight >= s.ctx.minWeight ==> GoodBase(s.dst[i], s.ctx)
  {
    forall i: nat | i < |s.dst|
      ensures HasPart(RedoMap(s), i) <==> Eligible(s, i)
    {
      RedoneHasPart(s, i);
    }
  }

  /** Only shares, weights and the stamp matter. */
  ghost predicate SameParts(s: State, t: State) {
    && |t.dst| == |s.dst| && t.mapFailed == s.mapFailed
    && forall i :: 0 <= i < |s.dst| ==> t.dst[i].share == s.dst[i].share && t.dst[i].weight == s.dst[i].weight
  }

  lemma SamePartsStranded(s: State, t: State)
    requires SameParts(s, t)
    ensures NobodyStranded(s) <==> NobodyStranded(t)
  {
    forall i: nat | i < |s.dst| ensures HasPart(s, i) <==> HasPart(t, i) { }
  }

  lemma {:induction false} ScanKeepsParts(s: State, i: nat, x: real, extra: nat, probe: nat -> Probe)
    requires i <= |s.dst|
    ensures SameParts(s, HintScan(s, i, x, extra, probe).0)
    decreases |s.dst| - i
  {
    if i < |s.dst| {
      ScanKeepsParts(s, i + 1, x, extra, probe);
      ScanKeepsParts(CheckAt(s, i, extra, probe(i)), i + 1, x, extra, probe);
    }
  }

  // ------------------------------------------------- which steps strand somebody

  ghost predicate ChangeMeetsOut(s: State, cnf: Config, c: Change) {
    Redoes(s, c) && s.mapFailed == 0 && AnyOut(Edited(s, c).dst, c.now, RetryInterval(cnf))
  }

  /** The choice redoes the map, the retry time having passed. */
  predicate MapDue(s: State, cnf: Config, now: int) {
    |s.dst| > 0 && s.mapFailed != 0 && now - s.mapFailed > RetryInterval(cnf)
  }

  ghost predicate ChooseMeetsOut(s: State, cnf: Config, d: Draw) {
    MapDue(s, cnf, d.now) && AnyOut(s.dst, d.now, RetryInterval(cnf))
  }

  /** A failure at time zero leaves the stamp that means none. */
  ghost predicate FailMeetsOut(s: State, cnf: Config, a: Addr, failed: bool, now: int) {
    var i := Index(s.dst, a);
    failed && i < |s.dst| && now == 0 && FailureCounts(s, cnf, i, now)
  }

  /** The step redoes the map, leaves no further look due, and meets a destination of
      positive weight that is still out. */
  ghost predicate MeetsOut(s: State, cnf: Config, op: Op)
    requires WellFormed(s) && Enabled(s, op)
  {
    match op
    case DoChange(c) => ChangeMeetsOut(s, cnf, c)
    case DoChoose(d) => ChooseMeetsOut(s, cnf, d)
    case DoDisconnect(a, failed, now) => FailMeetsOut(s, cnf, a, failed, now)
    case DoChooseAgain(a, now, d) =>
      FailMeetsOut(s, cnf, a, true, now) || ChooseMeetsOut(Disconnect(s, cnf, a, true, now).0, cnf, d)
  }

  /** A step from `s` to `t` strands somebody exactly when it `meets` one. */
  ghost predicate Strands(s: State, t: State, meets: bool) {
    (meets ==> !NobodyStranded(t)) && (!meets && NobodyStranded(s) ==> NobodyStranded(t))
  }

  lemma ChangeStrands(s: State, cnf: Config, c: Change)
    requires WellFormed(s) && s.top.None? && MapWithoutTop(cnf)
    ensures Strands(s, ChangeDst(s, cnf, c).0, ChangeMeetsOut(s, cnf, c))
  {
    ChangeIsRedo(s, cnf, c);
    if Redoes(s, c) && s.mapFailed == 0 {
      RedoneStrands(UpdateCtx(Edited(s, c), cnf, c.now), ChangeDst(s, cnf, c).0);
    }
  }

  lemma ChooseStrands(s: State, cnf: Config, d: Draw)
    requires WellFormed(s) && s.top.None? && MapWithoutTop(cnf)
    ensures Strands(s, Choose(s, cnf, d).0, ChooseMeetsOut(s, cnf, d))
    ensures !MapDue(s, cnf, d.now) ==> SameParts(s, Choose(s, cnf, d).0)
  {
    var p := UpdateCtx(s, cnf, d.now);
    var q := if |s.dst| == 0 then p else MapFreshened(p, cnf);
    var x := Point(if cnf.policy.Random? then d.random else d.hint);
    ScanKeepsParts(q, 0, x, cnf.extra, d.probe);
    var t := Choose(s, cnf, d).0;
    assert SameParts(q, t);
    SamePartsStranded(q, t);
    if MapDue(s, cnf, d.now) {
      RedoneStrands(p, q);
    } else {
      SamePartsStranded(s, q);
    }
  }

  lemma FailStrands(s: State, cnf: Config, i: nat, now: int)
    requires Inv(s, cnf) && i < |s.dst| && MapWithoutTop(cnf)
    ensures Strands(s, DstFailed(s, cnf, i, now), now == 0 && FailureCounts(s, cnf, i, now))
  {
    var s1 := s.(ctx := s.ctx.(now := now, retry := RetryInterval(cnf)));
    var s2 := s1.(dst := s1.dst[i := s1.dst[i].(failed := now)]);
    var t := DstFailed(s, cnf, i, now);
    if FailureCounts(s, cnf, i, now) {
      assert t == RedoMap(s2).(mapFailed := now);
      NoPartOf(s2, i);
      assert HasPart(t, i) <==> HasPart(RedoMap(s2), i);
    } else {
      SamePartsStranded(s, t);
    }
  }

  lemma DisconnectStrands(s: State, cnf: Config, a: Addr, failed: bool, now: int)
    requires Inv(s, cnf) && MayDisconnect(s, a) && MapWithoutTop(cnf)
    ensures Strands(s, Disconnect(s, cnf, a, failed, now).0, FailMeetsOut(s, cnf, a, failed, now))
  {
    var i := Index(s.dst, a);
    if i < |s.dst| {
      SamePartsStranded(s, Released(s, i));
      ReleasedRefines(s, i);
      FailStrands(Released(s, i), cnf, i, now);
    }
  }

  lemma ChooseAgainStrands(s: State, cnf: Config, a: Addr, now: int, d: Draw)
    requires Inv(s, cnf) && MayDisconnect(s, a) && MapWithoutTop(cnf)
    ensures Strands(s, ChooseAgain(s, cnf, a, now, d).0, MeetsOut(s, cnf, DoChooseAgain(a, now, d)))
  {
    var u := Disconnect(s, cnf, a, true, now).0;
    DisconnectStrands(s, cnf, a, true, now);
    DisconnectRefines(s, cnf, a, true, now);
    ChooseStrands(u, cnf, d);
    if FailMeetsOut(s, cnf, a, true, now) {
      assert u.mapFailed == 0;
      SamePartsStranded(u, Choose(u, cnf, d).0);
    }
  }

  lemma StepStrands(s: State, cnf: Config, op: Op)
    requires Inv(s, cnf) && Enabled(s, op) && MapWithoutTop(cnf)
    ensures Strands(s, Apply(s, cnf, op), MeetsOut(s, cnf, op))
  {
    match op
    case DoChange(c) => ChangeStrands(s, cnf, c);
    case DoChoose(d) => ChooseStrands(s, cnf, d);
    case DoDisconnect(a, failed, now) => DisconnectStrands(s, cnf, a, failed, now);
    case DoChooseAgain(a, now, d) => ChooseAgainStrands(s, cnf, a, now, d);
  }

  lemma {:induction false} NeverStranded(run: seq<State>, cnf: Config, ops: seq<Op>, k: nat)
    requires IsRun(run, cnf, ops) && MapWithoutTop(cnf) && k < |run|
    requires forall j :: 0 <= j < k ==> !MeetsOut(run[j], cnf, ops[j])
    ensures NobodyStranded(run[k])
  {
    if k > 0 {
      NeverStranded(run, cnf, ops, k - 1);
      RunRefines(run, cnf, ops);
      StepStrands(run[k - 1], cnf, ops[k - 1]);
    }
  }

  /** Nobody is stranded throughout a run if and only if no step redoes the map for the
      last time while a destination of positive weight is still out. */
  lemma StrandedRuns(run: seq<State>, cnf: Config, ops: seq<Op>)
    requires IsRun(run, cnf, ops) && MapWithoutTop(cnf)
    ensures (forall k :: 0 <= k < |run| ==> NobodyStranded(run[k])) <==>
            forall k :: 0 <= k < |ops| ==> !MeetsOut(run[k], cnf, ops[k])
  {
    if forall k :: 0 <= k < |ops| ==> !MeetsOut(run[k], cnf, ops[k]) {
      forall k | 0 <= k < |run| ensures NobodyStranded(run[k]) { NeverStranded(run, cnf, ops, k); }
    } else {
      var k :| 0 <= k < |ops| && MeetsOut(run[k], cnf, ops[k]);
      RunRefines(run, cnf, ops);
      StepStrands(run[k], cnf, ops[k]);
      assert !NobodyStranded(run[k + 1]);
    }
  }

  // -------------------------------------------------------- whom a choice finds

  /** The last interval ends at 1, or there is none. */
  ghost predicate Whole(s: State) {
    |s.dst| > 0 ==> s.dst[|s.dst| - 1].share == 1.0 || s.dst[|s.dst| - 1].share == 0.0
  }

  lemma RedoneIsWhole(s: State, t: State)
    requires s.ctx.minWeight >= EPS && t.dst == RedoMap(s).dst
    ensures Whole(t)
  {
    GoodWeightGrows(s, 0, |s.dst|);
    TotalIsPositive(s, |s.dst|);
    if GoodWeight(s, |s.dst|) > 0.0 {
      MapEndsAtOne(s);
    }
  }

  lemma ChooseWhole(s: State, cnf: Config, d: Draw)
    requires WellFormed(s) && s.top.None? && MapWithoutTop(cnf) && Whole(s)
    ensures Whole(Choose(s, cnf, d).0)
  {
    ChooseStrands(s, cnf, d);
    if MapDue(s, cnf, d.now) {
      var p := UpdateCtx(s, cnf, d.now);
      RedoneIsWhole(p, MapFreshened(p, cnf));
      ScanKeepsParts(MapFreshened(p, cnf), 0, PointOf(cnf, d), cnf.extra, d.probe);
    }
  }

  lemma DisconnectWhole(s: State, cnf: Config, a: Addr, failed: bool, now: int)
    requires Inv(s, cnf) && MayDisconnect(s, a) && MapWithoutTop(cnf) && Whole(s)
    ensures Whole(Disconnect(s, cnf, a, failed, now).0)
  {
    var i := Index(s.dst, a);
    if i < |s.dst| && failed && FailureCounts(s, cnf, i, now) {
      var s1 := Released(s, i).(ctx := s.ctx.(now := now, retry := RetryInterval(cnf)));
      RedoneIsWhole(s1.(dst := s1.dst[i := s1.dst[i].(failed := now)]), Disconnect(s, cnf, a, failed, now).0);
    }
  }

  lemma StepWhole(s: State, cnf: Config, op: Op)
    requires Inv(s, cnf) && Enabled(s, op) && MapWithoutTop(cnf) && Whole(s)
    ensures Whole(Apply(s, cnf, op))
  {
    match op
    case DoChange(c) =>
      ChangeIsRedo(s, cnf, c);
      if Redoes(s, c) { RedoneIsWhole(UpdateCtx(Edited(s, c), cnf, c.now), ChangeDst(s, cnf, c).0); }
    case DoChoose(d) => ChooseWhole(s, cnf, d);
    case DoDisconnect(a, failed, now) => DisconnectWhole(s, cnf, a, failed, now);
    case DoChooseAgain(a, now, d) =>
      DisconnectWhole(s, cnf, a, true, now);
      DisconnectRefines(s, cnf, a, true, now);
      ChooseWhole(Disconnect(s, cnf, a, true, now).0, cnf, d);
  }

  lemma {:induction false} RunIsWhole(run: seq<State>, cnf: Config, ops: seq<Op>, k: nat)
    requires IsRun(run, cnf, ops) && MapWithoutTop(cnf) && k < |run|
    ensures Whole(run[k])
  {
    if k > 0 {
      RunIsWhole(run, cnf, ops, k - 1);
      RunRefines(run, cnf, ops);
      StepWhole(run[k - 1], cnf, ops[k - 1]);
    }
  }

  lemma {:induction false} LookupFinds(s: State, i: nat, x: real, probe: nat -> Probe)
    requires i < |s.dst| && x < s.dst[|s.dst| - 1].share
    ensures HintScan(s, i, x, 0, probe).1.Some?
    decreases |s.dst| - i
  {
    if !(x < s.dst[i].share) {
      LookupFinds(s, i + 1, x, probe);
    }
  }

  /** Parts only rise, so a part anywhere means that the last interval ends above zero. */
  lemma {:induction false} SharesRise(s: State, cnf: Config, clock: int, i: nat, j: nat)
    requires Fresh(s, cnf, clock) && i <= j < |s.dst|
    ensures 0.0 <= Low(s, i) && s.dst[i].share <= s.dst[j].share
    decreases j
  {
    assert PartOk(s, i, cnf, clock);
    if i < j {
      assert PartOk(s, j, cnf, clock);
      SharesRise(s, cnf, clock, i, j - 1);
    } else if i > 0 {
      SharesRise(s, cnf, clock, i - 1, i - 1);
      assert PartOk(s, i - 1, cnf, clock);
    }
  }

  ghost predicate AnyUsable(s: State, cnf: Config, now: int) {
    exists i: nat :: i < |s.dst| && Good(s.dst[i], EPS, Context(EPS, RetryInterval(cnf), now))
  }

  /** With nobody stranded and no look at the map outstanding, a choice from a point that
      is not negative finds a destination if and only if one is usable. */
  lemma FindsUsable(s: State, cnf: Config, d: Draw, clock: int)
    requires Inv(s, cnf) && MapDecides(cnf) && Fresh(s, cnf, clock) && clock <= d.now && Whole(s)
    requires NobodyStranded(s) && !ChooseMeetsOut(s, cnf, d) && PointOf(cnf, d) >= 0.0
    requires s.mapFailed == 0 || d.now - s.mapFailed > RetryInterval(cnf)
    ensures Choose(s, cnf, d).1.Some? <==> AnyUsable(s, cnf, d.now)
  {
    ChosenIsUsable(s, cnf, d, clock);
    if i: nat :| i < |s.dst| && Good(s.dst[i], EPS, Context(EPS, RetryInterval(cnf), d.now)) {
      var p := LookedUp(s, cnf, d.now);
      LookedUpFresh(s, cnf, clock, d.now);
      LookedUpSettled(s, cnf, d);
      assert HasPart(p, i);
      PartIsFound(p, cnf, d, i);
      PickIsLookup(s, cnf, d);
    }
  }

  lemma PartIsFound(p: State, cnf: Config, d: Draw, i: nat)
    requires Fresh(p, cnf, d.now) && Whole(p) && i < |p.dst| && HasPart(p, i)
    ensures HintScan(p, 0, PointOf(cnf, d), 0, d.probe).1.Some?
  {
    SharesRise(p, cnf, d.now, i, |p.dst| - 1);
    PointRange(if cnf.policy.Random? then d.random else d.hint);
    LookupFinds(p, 0, PointOf(cnf, d), d.probe);
  }

  lemma LookedUpSettled(s: State, cnf: Config, d: Draw)
    requires Inv(s, cnf) && MapDecides(cnf) && Whole(s) && |s.dst| > 0
    requires NobodyStranded(s) && !ChooseMeetsOut(s, cnf, d)
    requires s.mapFailed == 0 || d.now - s.mapFailed > RetryInterval(cnf)
    ensures var p := LookedUp(s, cnf, d.now);
            && NobodyStranded(p) && Whole(p) && p.mapFailed == 0 && |p.dst| == |s.dst|
            && forall i :: 0 <= i < |s.dst| ==> p.dst[i].weight == s.dst[i].weight
  {
    var p := UpdateCtx(s, cnf, d.now);
    if MapDue(s, cnf, d.now) {
      RedoneStrands(p, MapFreshened(p, cnf));
      RedoneIsWhole(p, MapFreshened(p, cnf));
    } else {
      SamePartsStranded(s, p);
    }
  }

  /** So it is in every run in which nobody is stranded. */
  lemma RunFindsUsable(run: seq<State>, cnf: Config, ops: seq<Op>, k: nat)
    requires IsRun(run, cnf, ops) && InOrder(ops) && MapDecides(cnf) && k < |ops| && ops[k].DoChoose?
    requires forall j :: 0 <= j <= k ==> !MeetsOut(run[j], cnf, ops[j])
    requires PointOf(cnf, ops[k].d) >= 0.0
    requires run[k].mapFailed == 0 || ops[k].d.now - run[k].mapFailed > RetryInterval(cnf)
    ensures WellFormed(run[k])
    ensures Choose(run[k], cnf, ops[k].d).1.Some? <==> AnyUsable(run[k], cnf, ops[k].d.now)
  {
    RunRefines(run, cnf, ops);
    NeverStranded(run, cnf, ops, k);
    RunIsWhole(run, cnf, ops, k);
    assert !MeetsOut(run[k], cnf, ops[k]);
    var clock := ops[k].d.now;
    if k > 0 {
      RunIsFresh(run, cnf, ops, k);
      clock := Ends(ops[k - 1]);
    }
    FindsUsable(run[k], cnf, ops[k].d, clock);
  }

  ghost predicate AnyPart(s: State) {
    exists i: nat :: i < |s.dst| && HasPart(s, i)
  }

  lemma LookedUpWhole(s: State, cnf: Config, now: int)
    requires Inv(s, cnf) && MapDecides(cnf) && Whole(s)
    ensures Whole(LookedUp(s, cnf, now))
    ensures !MapDue(s, cnf, now) ==> SameParts(s, LookedUp(s, cnf, now))
  {
    var p := UpdateCtx(s, cnf, now);
    if MapDue(s, cnf, now) {
      RedoneIsWhole(p, MapFreshened(p, cnf));
    }
  }

  /** Whether or not a look at the map is outstanding, a choice from a point that is not
      negative finds a destination if and only if some row has a part of the map it looks
      the point up in; that is the map as it stands unless it is redone just then. */
  lemma FindsPart(s: State, cnf: Config, d: Draw, clock: int)
    requires Inv(s, cnf) && MapDecides(cnf) && Fresh(s, cnf, clock) && clock <= d.now && Whole(s)
    requires PointOf(cnf, d) >= 0.0
    ensures Choose(s, cnf, d).1.Some? <==> AnyPart(LookedUp(s, cnf, d.now))
    ensures !MapDue(s, cnf, d.now) ==> (AnyPart(LookedUp(s, cnf, d.now)) <==> AnyPart(s))
  {
    var p := LookedUp(s, cnf, d.now);
    LookedUpFresh(s, cnf, clock, d.now);
    LookedUpWhole(s, cnf, d.now);
    PickIsLookup(s, cnf, d);
    LookupOwns(p, 0, PointOf(cnf, d), d.probe);
    var found := HintScan(p, 0, PointOf(cnf, d), 0, d.probe).1;
    assert found.Some? ==> HasPart(p, found.value);
    if r: nat :| r < |p.dst| && HasPart(p, r) { PartIsFound(p, cnf, d, r); }
    if !MapDue(s, cnf, d.now) {
      SamePartsAny(s, p);
    }
  }

  lemma SamePartsAny(s: State, t: State)
    requires SameParts(s, t)
    ensures AnyPart(s) <==> AnyPart(t)
  {
    if i: nat :| i < |s.dst| && HasPart(s, i) { assert HasPart(t, i); }
    if i: nat :| i < |t.dst| && HasPart(t, i) { assert HasPart(s, i); }
  }

  /** So it is at every choice of a run. */
  lemma RunFindsPart(run: seq<State>, cnf: Config, ops: seq<Op>, k: nat)
    requires IsRun(run, cnf, ops) && InOrder(ops) && MapDecides(cnf) && k < |ops| && ops[k].DoChoose?
    requires PointOf(cnf, ops[k].d) >= 0.0
    ensures WellFormed(run[k])
    ensures Choose(run[k], cnf, ops[k].d).1.Some? <==> AnyPart(LookedUp(run[k], cnf, ops[k].d.now))
  {
    RunRefines(run, cnf, ops);
    RunIsWhole(run, cnf, ops, k);
    var clock := ops[k].d.now;
    if k > 0 {
      RunIsFresh(run, cnf, ops, k);
      clock := Ends(ops[k - 1]);
    }
    FindsPart(run[k], cnf, ops[k].d, clock);
  }

  /** Whoever is stranded stays so through any number of choices. */
  lemma StrandedStays(s: State, cnf: Config, d: Draw, i: nat)
    requires Inv(s, cnf) && MapWithoutTop(cnf) && s.mapFailed == 0 && i < |s.dst| && !HasPart(s, i)
    ensures var t := Choose(s, cnf, d).0;
            Inv(t, cnf) && t.mapFailed == 0 && i < |t.dst| && !HasPart(t, i) && t.dst[i].weight == s.dst[i].weight
  {
    ChooseRefines(s, cnf, d);
    ChooseStrands(s, cnf, d);
  }

  // ------------------------------------------------------------------ the top

  /** What a destination must weigh to replace the top. */
  function Bar(s: State): real
    requires WellFormed(s)
  {
    (if s.top.Some? && s.dst[s.top.value].weight >= EPS then s.dst[s.top.value].weight else EPS) * FACTOR
  }

  /** When no look at the top is due, no destination outweighs it by the factor. */
  ghost predicate NobodyOverlooked(s: State)
    requires WellFormed(s)
  {
    s.topFailed == 0 ==> forall i: nat :: i < |s.dst| ==> s.dst[i].weight < Bar(s)
  }

  /** One that does is still out at `now`. */
  ghost predicate AnyHeavierOut(s: State, now: int, retry: int)
    requires WellFormed(s)
  {
    exists i: nat :: i < |s.dst| && s.dst[i].weight >= Bar(s) && now - s.dst[i].failed <= retry
  }

  lemma Monotone(a: real, b: real)
    requires a <= b
    ensures a * FACTOR <= b * FACTOR
  {
    assert (b - a) * FACTOR >= 0.0;
  }

  /** Looking at the top at a moment when no further look is due overlooks nobody if and
      only if no destination that outweighs the outcome is still out. */
  lemma RedoneOverlooks(s: State, t: State)
    requires WellFormed(s) && s.ctx.minWeight >= EPS && s.ctx.minWeight * FACTOR <= Bar(s)
    requires WellFormed(t) && t.top == RedoTop(s).top && t.topFailed == 0 && SameWeights(s, t)
    ensures NobodyOverlooked(t) <==> !AnyHeavierOut(t, s.ctx.now, s.ctx.retry)
  {
    TopScanFinds(s, 0);
    TopScanShape(s, 0);
    var r := RedoTop(s);
    assert r.ctx.minWeight * FACTOR <= Bar(r) == Bar(t);
    forall i: nat | i < |s.dst| && s.ctx.now - s.dst[i].failed > s.ctx.retry
      ensures t.dst[i].weight < Bar(t)
    {
      NotReached(r, i);
    }
  }

  lemma NotReached(r: State, i: nat)
    requires i < |r.dst| && GoodBase(r.dst[i], r.ctx) && !Reaches(r, 0, r.ctx.minWeight * FACTOR)
    ensures r.dst[i].weight < r.ctx.minWeight * FACTOR
  {
    assert Good(r.dst[i], r.ctx.minWeight * FACTOR, r.ctx) <==> r.dst[i].weight >= r.ctx.minWeight * FACTOR;
  }

  /** Same weights and failure stamps. */
  ghost predicate SameWeights(s: State, t: State) {
    && |t.dst| == |s.dst|
    && forall i :: 0 <= i < |s.dst| ==> t.dst[i].weight == s.dst[i].weight && t.dst[i].failed == s.dst[i].failed
  }

  /** Only weights, the top and its stamp matter. */
  ghost predicate SameTop(s: State, t: State) {
    && |t.dst| == |s.dst| && t.top == s.top && t.topFailed == s.topFailed
    && forall i :: 0 <= i < |s.dst| ==> t.dst[i].weight == s.dst[i].weight
  }

  lemma SameTopOverlooked(s: State, t: State)
    requires WellFormed(s) && WellFormed(t) && SameTop(s, t)
    ensures NobodyOverlooked(s) <==> NobodyOverlooked(t)
  {
  }

  ghost predicate ChangeMeetsHeavier(s: State, cnf: Config, c: Change)
    requires WellFormed(s)
  {
    ChangeIsRedo(s, cnf, c);
    RefreshWellFormed(if Redoes(s, c) then Edited(s, c) else s, cnf, c.now);
    Redoes(s, c) && s.topFailed == 0 && AnyHeavierOut(ChangeDst(s, cnf, c).0, c.now, RetryInterval(cnf))
  }

  predicate TopDue(s: State, cnf: Config, now: int) {
    s.topFailed != 0 && now - s.topFailed > RetryInterval(cnf)
  }

  ghost predicate ChooseMeetsHeavier(s: State, cnf: Config, d: Draw)
    requires WellFormed(s)
  {
    PreparedWellFormed(s, cnf, d.now);
    TopDue(s, cnf, d.now) && AnyHeavierOut(Prepared(s, cnf, d.now), d.now, RetryInterval(cnf))
  }

  ghost predicate FailMeetsHeavier(s: State, cnf: Config, a: Addr, failed: bool, now: int)
    requires WellFormed(s) && MayDisconnect(s, a)
  {
    DisconnectWellFormed(s, cnf, a, failed, now);
    var i := Index(s.dst, a);
    && failed && i < |s.dst| && now == 0 && s.top == Some(i) && FailureCounts(s, cnf, i, now)
    && AnyHeavierOut(Disconnect(s, cnf, a, failed, now).0, now, RetryInterval(cnf))
  }

  /** The step looks at the top, leaves no further look due, and meets a destination that
      outweighs the outcome and is still out. */
  ghost predicate MeetsHeavier(s: State, cnf: Config, op: Op)
    requires WellFormed(s) && Enabled(s, op)
  {
    match op
    case DoChange(c) => ChangeMeetsHeavier(s, cnf, c)
    case DoChoose(d) => ChooseMeetsHeavier(s, cnf, d)
    case DoDisconnect(a, failed, now) => FailMeetsHeavier(s, cnf, a, failed, now)
    case DoChooseAgain(a, now, d) =>
      DisconnectWellFormed(s, cnf, a, true, now);
      FailMeetsHeavier(s, cnf, a, true, now) || ChooseMeetsHeavier(Disconnect(s, cnf, a, true, now).0, cnf, d)
  }

  ghost predicate Overlooks(s: State, t: State, meets: bool)
    requires WellFormed(s) && WellFormed(t)
  {
    (meets ==> !NobodyOverlooked(t)) && (!meets && NobodyOverlooked(s) ==> NobodyOverlooked(t))
  }

  /** After the context is refreshed the minimum weight is within the bar. */
  lemma ContextWithinBar(s: State, cnf: Config, now: int)
    requires WellFormed(s)
    ensures var p := UpdateCtx(s, cnf, now);
            p.ctx.minWeight >= EPS && p.ctx.minWeight * FACTOR <= Bar(p) && SameTop(s, p) && SameWeights(s, p)
  {
    var p := UpdateCtx(s, cnf, now);
    if !TopIsGood(p) && p.top.Some? && p.dst[p.top.value].weight >= EPS {
      Monotone(EPS, p.dst[p.top.value].weight);
    }
  }

  lemma ChangeOverlooks(s: State, cnf: Config, c: Change)
    requires WellFormed(s) && cnf.top
    ensures WellFormed(ChangeDst(s, cnf, c).0)
    ensures Overlooks(s, ChangeDst(s, cnf, c).0, ChangeMeetsHeavier(s, cnf, c))
  {
    ChangeIsRedo(s, cnf, c);
    if Redoes(s, c) {
      var p := UpdateCtx(Edited(s, c), cnf, c.now);
      RefreshWellFormed(Edited(s, c), cnf, c.now);
      ContextWithinBar(Edited(s, c), cnf, c.now);
      TopScanShape(p, 0);
      if s.topFailed == 0 { RedoneOverlooks(p, ChangeDst(s, cnf, c).0); }
    }
  }

  lemma PickKeepsTop(p: State, cnf: Config, d: Draw)
    requires WellFormed(p)
    ensures SameTop(p, Pick(p, cnf, d).0)
  {
    PickKeeps(p, cnf, d);
    PickKeepsStamp(p, cnf, d);
  }

  lemma {:induction false} RoundKeepsStamp(s: State, left: nat, extra: nat, probe: nat -> Probe)
    requires WellFormed(s) && left <= |s.dst|
    ensures RoundScan(s, left, extra, probe).0.topFailed == s.topFailed
    decreases left
  {
    if left > 0 {
      RoundKeepsStamp(Advanced(s), left - 1, extra, probe);
      RoundKeepsStamp(CheckAt(Advanced(s), s.next, extra, probe(s.next)), left - 1, extra, probe);
    }
  }

  lemma {:induction false} HintKeepsStamp(s: State, i: nat, x: real, extra: nat, probe: nat -> Probe)
    requires i <= |s.dst|
    ensures HintScan(s, i, x, extra, probe).0.topFailed == s.topFailed
    decreases |s.dst| - i
  {
    if i < |s.dst| {
      HintKeepsStamp(s, i + 1, x, extra, probe);
      HintKeepsStamp(CheckAt(s, i, extra, probe(i)), i + 1, x, extra, probe);
    }
  }

  lemma PickKeepsStamp(p: State, cnf: Config, d: Draw)
    requires WellFormed(p)
    ensures Pick(p, cnf, d).0.topFailed == p.topFailed
  {
    match cnf.policy
    case Least =>
    case Round => RoundKeepsStamp(p, |p.dst|, cnf.extra, d.probe);
    case Single =>
    case Random => HintKeepsStamp(MapFreshened(p, cnf), 0, Point(d.random), cnf.extra, d.probe);
    case Source => HintKeepsStamp(MapFreshened(p, cnf), 0, Point(d.hint), cnf.extra, d.probe);
  }

  lemma ChooseOverlooks(s: State, cnf: Config, d: Draw)
    requires Inv(s, cnf) && cnf.top
    ensures WellFormed(Choose(s, cnf, d).0)
    ensures Overlooks(s, Choose(s, cnf, d).0, ChooseMeetsHeavier(s, cnf, d))
    ensures !TopDue(s, cnf, d.now) ==> SameTop(s, Choose(s, cnf, d).0)
  {
    var p := Prepared(s, cnf, d.now);
    PreparedWellFormed(s, cnf, d.now);
    PickKeepsTop(p, cnf, d);
    ChooseRefines(s, cnf, d);
    SameTopOverlooked(p, Choose(s, cnf, d).0);
    PreparedOverlooks(s, cnf, d);
  }

  lemma PreparedOverlooks(s: State, cnf: Config, d: Draw)
    requires Inv(s, cnf) && cnf.top
    ensures WellFormed(Prepared(s, cnf, d.now))
    ensures Overlooks(s, Prepared(s, cnf, d.now), ChooseMeetsHeavier(s, cnf, d))
    ensures !TopDue(s, cnf, d.now) ==> SameTop(s, Prepared(s, cnf, d.now))
  {
    var p := Prepared(s, cnf, d.now);
    PreparedWellFormed(s, cnf, d.now);
    ContextWithinBar(s, cnf, d.now);
    if TopDue(s, cnf, d.now) {
      RedoneOverlooks(UpdateCtx(s, cnf, d.now), p);
    } else {
      SameTopOverlooked(s, p);
    }
  }

  lemma FailOverlooks(s: State, cnf: Config, i: nat, now: int)
    requires Inv(s, cnf) && i < |s.dst| && cnf.top
    ensures WellFormed(DstFailed(s, cnf, i, now))
    ensures Overlooks(s, DstFailed(s, cnf, i, now),
                      now == 0 && s.top == Some(i) && FailureCounts(s, cnf, i, now)
                      && AnyHeavierOut(DstFailed(s, cnf, i, now), now, RetryInterval(cnf)))
  {
    var s1 := s.(ctx := s.ctx.(now := now, retry := RetryInterval(cnf)));
    var s2 := s1.(dst := s1.dst[i := s1.dst[i].(failed := now)]);
    var t := DstFailed(s, cnf, i, now);
    DstFailedWellFormed(s, cnf, i, now);
    if FailureCounts(s, cnf, i, now) && s.top == Some(i) {
      var s3 := s2.(ctx := s2.ctx.(minWeight := EPS));
      TopScanShape(s3, 0);
      if s3.dst[i].weight >= EPS { Monotone(EPS, s3.dst[i].weight); }
      if now == 0 { RedoneOverlooks(s3, t); }
    } else {
      SameTopOverlooked(s, t);
    }
  }

  lemma DisconnectOverlooks(s: State, cnf: Config, a: Addr, failed: bool, now: int)
    requires Inv(s, cnf) && MayDisconnect(s, a) && cnf.top
    ensures WellFormed(Disconnect(s, cnf, a, failed, now).0)
    ensures Overlooks(s, Disconnect(s, cnf, a, failed, now).0, FailMeetsHeavier(s, cnf, a, failed, now))
  {
    DisconnectWellFormed(s, cnf, a, failed, now);
    var i := Index(s.dst, a);
    if i < |s.dst| {
      ReleasedRefines(s, i);
      SameTopOverlooked(s, Released(s, i));
      FailOverlooks(Released(s, i), cnf, i, now);
    }
  }

  lemma ChooseAgainOverlooks(s: State, cnf: Config, a: Addr, now: int, d: Draw)
    requires Inv(s, cnf) && MayDisconnect(s, a) && cnf.top
    ensures WellFormed(ChooseAgain(s, cnf, a, now, d).0)
    ensures Overlooks(s, ChooseAgain(s, cnf, a, now, d).0, MeetsHeavier(s, cnf, DoChooseAgain(a, now, d)))
  {
    var u := Disconnect(s, cnf, a, true, now).0;
    DisconnectOverlooks(s, cnf, a, true, now);
    DisconnectRefines(s, cnf, a, true, now);
    ChooseOverlooks(u, cnf, d);
    if FailMeetsHeavier(s, cnf, a, true, now) {
      assert u.topFailed == 0;
      SameTopOverlooked(u, Choose(u, cnf, d).0);
    }
  }

  lemma StepOverlooks(s: State, cnf: Config, op: Op)
    requires Inv(s, cnf) && Enabled(s, op) && cnf.top
    ensures WellFormed(Apply(s, cnf, op)) && Overlooks(s, Apply(s, cnf, op), MeetsHeavier(s, cnf, op))
  {
    match op
    case DoChange(c) => ChangeOverlooks(s, cnf, c);
    case DoChoose(d) => ChooseOverlooks(s, cnf, d);
    case DoDisconnect(a, failed, now) => DisconnectOverlooks(s, cnf, a, failed, now);
    case DoChooseAgain(a, now, d) => ChooseAgainOverlooks(s, cnf, a, now, d);
  }

  lemma {:induction false} NeverOverlooked(run: seq<State>, cnf: Config, ops: seq<Op>, k: nat)
    requires IsRun(run, cnf, ops) && cnf.top && k < |run|
    requires forall j :: 0 <= j < k ==> !MeetsHeavier(run[j], cnf, ops[j])
    ensures WellFormed(run[k]) && NobodyOverlooked(run[k])
  {
    if k > 0 {
      NeverOverlooked(run, cnf, ops, k - 1);
      RunRefines(run, cnf, ops);
      StepOverlooks(run[k - 1], cnf, ops[k - 1]);
    }
  }

  /** Nobody is overlooked throughout a run if and only if no step looks at the top for
      the last time while a destination that outweighs the outcome is still out. */
  lemma OverlookedRuns(run: seq<State>, cnf: Config, ops: seq<Op>)
    requires IsRun(run, cnf, ops) && cnf.top
    ensures (forall k :: 0 <= k < |run| ==> WellFormed(run[k]) && NobodyOverlooked(run[k])) <==>
            forall k :: 0 <= k < |ops| ==> !MeetsHeavier(run[k], cnf, ops[k])
  {
    if forall k :: 0 <= k < |ops| ==> !MeetsHeavier(run[k], cnf, ops[k]) {
      forall k | 0 <= k < |run| ensures WellFormed(run[k]) && NobodyOverlooked(run[k]) {
        NeverOverlooked(run, cnf, ops, k);
      }
    } else {
      var k :| 0 <= k < |ops| && MeetsHeavier(run[k], cnf, ops[k]);
      RunRefines(run, cnf, ops);
      StepOverlooks(run[k], cnf, ops[k]);
      assert !(WellFormed(run[k + 1]) && NobodyOverlooked(run[k + 1]));
    }
  }

  // -------------------------------------------------------- the single policy

  ghost predicate TopUsable(s: State, cnf: Config, now: int)
    requires WellFormed(s)
  {
    s.top.Some? && Good(s.dst[s.top.value], EPS, Context(EPS, RetryInterval(cnf), now))
  }

  /** A usable destination that weighs enough to become the top from nothing. */
  ghost predicate AnyCandidate(s: State, cnf: Config, now: int) {
    exists i: nat :: i < |s.dst| && Good(s.dst[i], EPS * FACTOR, Context(EPS, RetryInterval(cnf), now))
  }

  /** The single policy finds a destination if and only if its top is usable, or this
      choice looks at the top and there is a candidate for it.  Otherwise it finds none,
      whoever else is usable. */
  lemma SingleFinds(s: State, cnf: Config, d: Draw)
    requires Inv(s, cnf) && cnf.policy.Single? && cnf.top
    ensures Choose(s, cnf, d).1.Some? <==>
            TopUsable(s, cnf, d.now) || (TopDue(s, cnf, d.now) && AnyCandidate(s, cnf, d.now))
  {
    var p := UpdateCtx(s, cnf, d.now);
    PreparedWellFormed(s, cnf, d.now);
    assert TopIsGood(p) <==> TopUsable(s, cnf, d.now);
    if TopDue(s, cnf, d.now) {
      TopScanFinds(p, 0);
      CandidatesReach(s, cnf, d.now);
      Grows(p.ctx.minWeight);
    }
  }

  lemma CandidatesReach(s: State, cnf: Config, now: int)
    requires WellFormed(s)
    ensures Reaches(UpdateCtx(s, cnf, now), 0, EPS * FACTOR) <==> AnyCandidate(s, cnf, now)
  {
    var p := UpdateCtx(s, cnf, now);
    if i: nat :| i < |s.dst| && Good(s.dst[i], EPS * FACTOR, Context(EPS, RetryInterval(cnf), now)) {
      assert Good(p.dst[i], EPS * FACTOR, p.ctx);
    }
    if i: nat :| i < |p.dst| && Good(p.dst[i], EPS * FACTOR, p.ctx) {
      assert Good(s.dst[i], EPS * FACTOR, Context(EPS, RetryInterval(cnf), now));
    }
  }
}
