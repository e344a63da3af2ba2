/** The top destination is a sticky maximum: it is kept until it fails or another
    destination outweighs it by more than the rounding factor. */
module TopChoice {
  import opened RouterState
  import opened RouterInvariant

  /** A row from `from` on that is not recently failed and weighs at least `bar`. */
  ghost predicate Reaches(s: State, from: nat, bar: real) {
    exists j: nat :: from <= j < |s.dst| && Good(s.dst[j], bar, s.ctx)
  }

  /** What one scan does: nothing when no row reaches the current weight times the
      factor; otherwise the top becomes a row that does, its weight becomes the
      minimum, and no row reaches that times the factor. */
  ghost predicate ScanResult(s: State, from: nat, t: State) {
    if !Reaches(s, from, s.ctx.minWeight * FACTOR) then t == s
    else
      && t.top.Some? && from <= t.top.value < |s.dst|
      && Good(s.dst[t.top.value], s.ctx.minWeight * FACTOR, s.ctx)
      && t == s.(top := t.top, ctx := s.ctx.(minWeight := s.dst[t.top.value].weight))
      && !Reaches(t, from, t.ctx.minWeight * FACTOR)
  }

  lemma {:induction false} TopScanFinds(s: State, i: nat)
    requires i <= |s.dst| && s.ctx.minWeight >= EPS
    ensures ScanResult(s, i, TopScan(s, i))
    decreases |s.dst| - i
  {
    if i < |s.dst| {
      var s1 := TopStep(s, i);
      TopScanFinds(s1, i + 1);
      ScanOneMore(s, i, TopScan(s1, i + 1));
    }
  }

  lemma ScanOneMore(s: State, i: nat, t: State)
    requires i < |s.dst| && s.ctx.minWeight >= EPS
    requires ScanResult(TopStep(s, i), i + 1, t)
    ensures ScanResult(s, i, t)
  {
    if Good(s.dst[i], s.ctx.minWeight * FACTOR, s.ctx) { ScanTook(s, i, t); } else { ScanPassed(s, i, t); }
  }

  /** Row `i` became the top. */
  lemma ScanTook(s: State, i: nat, t: State)
    requires i < |s.dst| && s.ctx.minWeight >= EPS && Good(s.dst[i], s.ctx.minWeight * FACTOR, s.ctx)
    requires ScanResult(TopStep(s, i), i + 1, t)
    ensures ScanResult(s, i, t)
  {
    assert Reaches(s, i, s.ctx.minWeight * FACTOR);
    Grows(s.ctx.minWeight);
    Grows(s.dst[i].weight);
    Grows(t.ctx.minWeight);
  }

  /** Row `i` did not. */
  lemma ScanPassed(s: State, i: nat, t: State)
    requires i < |s.dst| && s.ctx.minWeight >= EPS && !Good(s.dst[i], s.ctx.minWeight * FACTOR, s.ctx)
    requires ScanResult(s, i + 1, t)
    ensures ScanResult(s, i, t)
  {
    Grows(s.ctx.minWeight);
    if j: nat :| i <= j < |s.dst| && Good(s.dst[j], s.ctx.minWeight * FACTOR, s.ctx) {
      assert Reaches(s, i + 1, s.ctx.minWeight * FACTOR);
    }
  }

  lemma Grows(w: real)
    ensures w >= EPS ==> w * FACTOR > w
  {
    if w >= EPS {
      assert w * FACTOR == w + w * EPS;
      assert w * EPS > 0.0;
    }
  }

  // ------------------------------------------------------- losing the top

  /** Row `i` is out, and the top is a best usable row, or still `i` when there is
      no usable row left. */
  ghost predicate FailedOver(t: State, i: nat) {
    && i < |t.dst| && !GoodBase(t.dst[i], t.ctx)
    && (if Reaches(t, 0, EPS * FACTOR)
        then && t.top.Some? && t.top.value != i && t.top.value < |t.dst|
             && Good(t.dst[t.top.value], EPS, t.ctx)
             && t.ctx.minWeight == t.dst[t.top.value].weight
             && !Reaches(t, 0, t.ctx.minWeight * FACTOR)
        else t.top == Some(i) && t.ctx.minWeight == EPS)
  }

  lemma ScanFailsOver(s: State, i: nat)
    requires s.ctx.minWeight == EPS && s.top == Some(i) && i < |s.dst| && !GoodBase(s.dst[i], s.ctx)
    ensures FailedOver(RedoTop(s), i)
  {
    TopScanFinds(s, 0);
    SameReach(s, RedoTop(s), EPS * FACTOR);
    Grows(EPS);
  }

  lemma FailedOverSame(s: State, t: State, i: nat)
    requires FailedOver(s, i) && SameDecision(s, t)
    ensures FailedOver(t, i)
  {
    SameReach(s, t, EPS * FACTOR);
    SameReach(s, t, t.ctx.minWeight * FACTOR);
  }

  /** When the top destination fails while in use, a best remaining one replaces
      it if any remaining one is usable; otherwise it stays nominally top. */
  lemma TopFailsOver(s: State, cnf: Config, i: nat, now: int)
    requires Inv(s, cnf) && s.top == Some(i) && i < |s.dst|
    requires Good(s.dst[i], s.ctx.minWeight, Context(0.0, RetryInterval(cnf), now))
    ensures FailedOver(DstFailed(s, cnf, i, now), i)
    ensures DstFailed(s, cnf, i, now).topFailed == now
  {
    var s1 := s.(ctx := s.ctx.(now := now, retry := RetryInterval(cnf)));
    var s2 := s1.(dst := s1.dst[i := s1.dst[i].(failed := now)], ctx := s1.ctx.(minWeight := EPS));
    assert Eligible(s1, i);
    ScanFailsOver(s2, i);
    FailedOverSame(RedoTop(s2), DstFailed(s, cnf, i, now), i);
  }

  /** Same weights, failure stamps, context and top. */
  ghost predicate SameDecision(s: State, t: State) {
    && SameStamps(s, t) && s.top == t.top && s.ctx == t.ctx
  }

  ghost predicate SameStamps(s: State, t: State) {
    && |s.dst| == |t.dst| && s.ctx.now == t.ctx.now && s.ctx.retry == t.ctx.retry
    && forall j :: 0 <= j < |s.dst| ==> s.dst[j].weight == t.dst[j].weight && s.dst[j].failed == t.dst[j].failed
  }

  lemma SameReach(s: State, t: State, bar: real)
    requires SameStamps(s, t)
    ensures Reaches(s, 0, bar) <==> Reaches(t, 0, bar)
  {
    if j: nat :| 0 <= j < |s.dst| && Good(s.dst[j], bar, s.ctx) { assert Good(t.dst[j], bar, t.ctx); }
    if j: nat :| 0 <= j < |t.dst| && Good(t.dst[j], bar, t.ctx) { assert Good(s.dst[j], bar, s.ctx); }
  }

  /** Once the retry time has passed since the top failed, the next choice looks
      again: no row usable then is left that outweighs the top by the factor.  One that
      is still out then is not looked at again (`Recovery`). */
  lemma TopRecheckedAfterRetry(s: State, cnf: Config, now: int)
    requires WellFormed(s) && cnf.top && s.topFailed != 0 && now - s.topFailed > RetryInterval(cnf)
    ensures var p := Prepared(s, cnf, now);
            && p.topFailed == 0 && p.ctx.now == now && !Reaches(p, 0, p.ctx.minWeight * FACTOR)
  {
    var s1 := UpdateCtx(s, cnf, now);
    TopScanFinds(s1, 0);
    TopScanShape(s1, 0);
    SameReach(RedoTop(s1), Prepared(s, cnf, now), RedoTop(s1).ctx.minWeight * FACTOR);
  }

  // ------------------------------------------------------------ stickiness

  /** At time `now` row `t` is usable and no usable row outweighs it by the factor. */
  ghost predicate Leads(dst: seq<Entry>, t: nat, now: int, retry: int) {
    && t < |dst| && dst[t].weight >= EPS && now - dst[t].failed > retry
    && forall j :: 0 <= j < |dst| && now - dst[j].failed > retry ==> dst[j].weight < dst[t].weight * FACTOR
  }

  /** Refreshing the context and the top keeps a leading top. */
  lemma LeaderKept(s: State, cnf: Config, t: nat, now: int)
    requires WellFormed(s) && s.top == Some(t) && Leads(s.dst, t, now, RetryInterval(cnf))
    ensures RedoTop(UpdateCtx(s, cnf, now)) == UpdateCtx(s, cnf, now)
    ensures TopIsGood(UpdateCtx(s, cnf, now))
  {
    var s1 := UpdateCtx(s, cnf, now);
    assert s1.ctx == Context(s.dst[t].weight, RetryInterval(cnf), now);
    TopScanFinds(s1, 0);
    if j: nat :| 0 <= j < |s1.dst| && Good(s1.dst[j], s1.ctx.minWeight * FACTOR, s1.ctx) {
      assert false;
    }
  }

  lemma ChooseSticks(s: State, cnf: Config, t: nat, d: Draw)
    requires WellFormed(s) && s.top == Some(t) && Leads(s.dst, t, d.now, RetryInterval(cnf))
    ensures Choose(s, cnf, d).0.top == Some(t)
    ensures cnf.policy.Single? ==> Choose(s, cnf, d).1 == Some(t)
  {
    LeaderKept(s, cnf, t, d.now);
    PreparedWellFormed(s, cnf, d.now);
    PickKeeps(Prepared(s, cnf, d.now), cnf, d);
  }

  lemma DisconnectSticks(s: State, cnf: Config, t: nat, a: Addr, failed: bool, now: int)
    requires WellFormed(s) && Distinct(s.dst) && MayDisconnect(s, a)
    requires s.top == Some(t) && (failed ==> a != s.dst[t].addr)
    ensures Disconnect(s, cnf, a, failed, now).0.top == Some(t)
  {
  }

  /** A run step that neither adds nor removes a destination, does not fail row
      `t`, and finds it leading whenever the top is looked at. */
  ghost predicate Undisturbed(s: State, cnf: Config, op: Op, t: nat) {
    && WellFormed(s) && Enabled(s, op) && t < |s.dst|
    && match op
       case DoChange(c) =>
         var i := Index(s.dst, c.addr);
         && c.weight >= 0.0 && i < |s.dst|
         && Leads(Reweighted(s, i, c.weight).dst, t, c.now, RetryInterval(cnf))
       case DoChoose(d) => Leads(s.dst, t, d.now, RetryInterval(cnf))
       case DoDisconnect(a, failed, now) => failed ==> a != s.dst[t].addr
       case DoChooseAgain(a, now, d) =>
         a != s.dst[t].addr && Leads(Disconnect(s, cnf, a, true, now).0.dst, t, d.now, RetryInterval(cnf))
  }

  lemma StepSticks(s: State, cnf: Config, op: Op, t: nat)
    requires Inv(s, cnf) && cnf.top && s.top == Some(t) && Undisturbed(s, cnf, op, t)
    ensures Inv(Apply(s, cnf, op), cnf) && Apply(s, cnf, op).top == Some(t)
    ensures op.DoChoose? && cnf.policy.Single? ==> Choose(s, cnf, op.d).1 == Some(t)
  {
    StepRefines(s, cnf, op);
    match op
    case DoChange(c) =>
      var i := Index(s.dst, c.addr);
      if s.dst[i].weight != c.weight {
        LeaderKept(Reweighted(s, i, c.weight), cnf, t, c.now);
      }
    case DoChoose(d) => ChooseSticks(s, cnf, t, d);
    case DoDisconnect(a, failed, now) => DisconnectSticks(s, cnf, t, a, failed, now);
    case DoChooseAgain(a, now, d) =>
      DisconnectSticks(s, cnf, t, a, true, now);
      DisconnectWellFormed(s, cnf, a, true, now);
      ChooseSticks(Disconnect(s, cnf, a, true, now).0, cnf, t, d);
  }

  /** Over a whole undisturbed run the top stays, and under the single policy
      every choice goes to it. */
  lemma {:induction false} TopIsSticky(run: seq<State>, cnf: Config, ops: seq<Op>, t: nat)
    requires |run| == |ops| + 1 && Inv(run[0], cnf) && cnf.top && run[0].top == Some(t)
    requires forall k {:trigger ops[k]} :: 0 <= k < |ops| ==>
      Undisturbed(run[k], cnf, ops[k], t) && run[k + 1] == Apply(run[k], cnf, ops[k])
    ensures forall k {:trigger run[k]} :: 0 <= k < |run| ==> run[k].top == Some(t)
    ensures forall k {:trigger ops[k]} :: 0 <= k < |ops| && ops[k].DoChoose? && cnf.policy.Single? ==>
      WellFormed(run[k]) && Choose(run[k], cnf, ops[k].d).1 == Some(t)
  {
    for n := 0 to |ops|
      invariant Inv(run[n], cnf)
      invariant forall k {:trigger run[k]} :: 0 <= k <= n ==> run[k].top == Some(t)
      invariant forall k {:trigger ops[k]} :: 0 <= k < n && ops[k].DoChoose? && cnf.policy.Single? ==>
        WellFormed(run[k]) && Choose(run[k], cnf, ops[k].d).1 == Some(t)
    {
      StepSticks(run[n], cnf, ops[n], t);
    }
  }
}
