/** Runs of the router, from the empty table, that show what happens when a hypothesis
    of the theorems is not met. */
module Scenarios {
  import opened RouterState
  import opened RouterInvariant
  import opened WeightMap
  import opened FreshMap
  import opened Recovery

  const A: Addr := Addr(1, 1)
  const B: Addr := Addr(2, 1)
  const C: Addr := Addr(3, 1)

  function Line(a: Addr, weight: real, share: real, failed: int, conns: nat): Entry {
    Entry(a, weight, Usage(weight, conns), share, 0, failed, conns, false)
  }

  function Add(a: Addr, weight: real): Change {
    Change(a, weight, false, 0, 10, 0.0)
  }

  function At(now: int, hint: Hint): Draw {
    Draw(now, hint, hint, (i: nat) => Probe(0, true, 0, 0))
  }

  /** A run in clock order that ends in `s`, at time `now`. */
  ghost predicate RunTo(run: seq<State>, cnf: Config, ops: seq<Op>, s: State, now: int) {
    && IsRun(run, cnf, ops) && InOrder(ops) && run[|run| - 1] == s
    && (ops != [] ==> Ends(ops[|ops| - 1]) == now)
  }

  lemma OneMore(run: seq<State>, cnf: Config, ops: seq<Op>, s: State, now: int, op: Op, next: State)
    returns (longer: seq<State>, more: seq<Op>)
    requires RunTo(run, cnf, ops, s, now) && WellFormed(s) && Enabled(s, op) && next == Apply(s, cnf, op)
    requires now <= Starts(op) <= Ends(op)
    ensures RunTo(longer, cnf, more, next, Ends(op))
  {
    longer, more := run + [next], ops + [op];
    forall k | 0 <= k < |more|
      ensures WellFormed(longer[k]) && Enabled(longer[k], more[k]) && longer[k + 1] == Apply(longer[k], cnf, more[k])
    {
      if k < |ops| { assert longer[k] == run[k] && longer[k + 1] == run[k + 1] && more[k] == ops[k]; }
    }
    LaterInOrder(ops, op);
  }

  lemma LaterInOrder(ops: seq<Op>, op: Op)
    requires InOrder(ops) && Starts(op) <= Ends(op) && (ops != [] ==> Ends(ops[|ops| - 1]) <= Starts(op))
    ensures InOrder(ops + [op])
  {
  }

  // ----------------------------------------------- a destination that never returns

  const PLAIN: Config := Config(Source, false, 0, 0)

  function One(share: real, failed: int, conns: nat, now: int, mapFailed: int): State {
    State([Line(A, 1.0, share, failed, conns)], conns, 0, None, Context(EPS, 1, now), mapFailed, 0)
  }

  lemma RedoOne(share: real, failed: int, conns: nat, now: int, mapFailed: int)
    ensures RedoMap(One(share, failed, conns, now, mapFailed)) ==
            One(if now - failed > 1 then 1.0 else 0.0, failed, conns, now, mapFailed)
  {
    var s := One(share, failed, conns, now, mapFailed);
    assert GoodWeight(s, 0) == 0.0 && GoodWeight(s, 1) == OwnWeight(s, 0);
    assert RedoMap(s).dst[0].share == if now - failed > 1 then 1.0 else 0.0;
  }

  lemma AddOne()
    ensures Apply(Start, PLAIN, DoChange(Add(A, 1.0))) == One(1.0, 0, 0, 10, 0)
  {
    var s := Appended(Start, A, 1.0, false, 0, 0.0);
    assert s.dst == One(0.0, 0, 0, 10, 0).dst && RetryInterval(PLAIN) == 1;
    assert UpdateCtx(s, PLAIN, 10) == One(0.0, 0, 0, 10, 0);
    RedoOne(0.0, 0, 0, 10, 0);
  }

  lemma ChooseOne(conns: nat)
    ensures Apply(One(1.0, 0, conns, 10, 0), PLAIN, DoChoose(At(10, 100))) == One(1.0, 0, conns + 1, 10, 0)
  {
    var s := One(1.0, 0, conns, 10, 0);
    assert RetryInterval(PLAIN) == 1 && Prepared(s, PLAIN, 10) == s;
    PointRange(100);
    LookupChangesNothing(s, 0, Point(100), At(10, 100).probe);
    assert HintScan(s, 0, Point(100), 0, At(10, 100).probe).1 == Some(0);
    assert Acquired(s, 0).dst == One(1.0, 0, conns + 1, 10, 0).dst;
  }

  /** The first failure counts and redoes the map; the second, while the destination is
      out, only moves its stamp. */
  lemma FailOne()
    ensures MayDisconnect(One(1.0, 0, 2, 10, 0), A) && MayDisconnect(One(0.0, 10, 1, 10, 10), A)
    ensures Apply(One(1.0, 0, 2, 10, 0), PLAIN, DoDisconnect(A, true, 10)) == One(0.0, 10, 1, 10, 10)
    ensures Apply(One(0.0, 10, 1, 10, 10), PLAIN, DoDisconnect(A, true, 11)) == One(0.0, 11, 0, 11, 10)
  {
    var s, t := One(1.0, 0, 2, 10, 0), One(0.0, 10, 1, 10, 10);
    assert RetryInterval(PLAIN) == 1 && Index(s.dst, A) == 0 && Index(t.dst, A) == 0;
    assert Released(s, 0) == One(1.0, 0, 1, 10, 0);
    assert Released(t, 0) == One(0.0, 10, 0, 10, 10);
    RedoOne(1.0, 10, 1, 10, 0);
    var u := One(1.0, 0, 1, 10, 0);
    assert u.dst[0 := u.dst[0].(failed := 10)] == One(1.0, 10, 1, 10, 0).dst;
    assert DstFailed(u, PLAIN, 0, 10) == RedoMap(One(1.0, 10, 1, 10, 0)).(mapFailed := 10);
    var v := One(0.0, 10, 0, 10, 10);
    assert v.dst[0 := v.dst[0].(failed := 11)] == One(0.0, 11, 0, 11, 10).dst;
  }

  lemma LookAgain()
    ensures Apply(One(0.0, 11, 0, 11, 10), PLAIN, DoChoose(At(12, 100))) == One(0.0, 11, 0, 12, 0)
  {
    var s := One(0.0, 11, 0, 11, 10);
    assert RetryInterval(PLAIN) == 1 && Prepared(s, PLAIN, 12) == One(0.0, 11, 0, 12, 10);
    RedoOne(0.0, 11, 0, 12, 10);
    PointRange(100);
    assert HintScan(One(0.0, 11, 0, 12, 0), 0, Point(100), 0, At(12, 100).probe) == (One(0.0, 11, 0, 12, 0), None);
  }

  /** From `from` on a destination is usable, and yet no choice from a point that is not
      negative finds one or changes that. */
  ghost predicate LostFrom(s: State, cnf: Config, from: int) {
    WellFormed(s) && forall d: Draw | d.now >= from && PointOf(cnf, d) >= 0.0 :: Misses(s, cnf, d)
  }

  ghost predicate Misses(s: State, cnf: Config, d: Draw)
    requires WellFormed(s)
  {
    var (t, r) := Choose(s, cnf, d);
    AnyUsable(s, cnf, d.now) && r == None && t.dst == s.dst && t.mapFailed == s.mapFailed == 0
  }

  /** Two failures of the only destination, the second while it is out: from then on no
      choice finds it, however long it has been usable. */
  lemma StrandedForever() returns (run: seq<State>, ops: seq<Op>)
    ensures IsRun(run, PLAIN, ops) && InOrder(ops) && MapDecides(PLAIN) && LostFrom(run[|run| - 1], PLAIN, 13)
  {
    run, ops := StrandedRun();
    forall d: Draw | d.now >= 13 && PointOf(PLAIN, d) >= 0.0
      ensures Misses(One(0.0, 11, 0, 12, 0), PLAIN, d)
    {
      NeverFound(d);
    }
  }

  lemma StrandedRun() returns (run: seq<State>, ops: seq<Op>)
    ensures RunTo(run, PLAIN, ops, One(0.0, 11, 0, 12, 0), 12)
  {
    run, ops := [Start], [];
    AddOne();
    run, ops := OneMore(run, PLAIN, ops, Start, 10, DoChange(Add(A, 1.0)), One(1.0, 0, 0, 10, 0));
    ChooseOne(0);
    run, ops := OneMore(run, PLAIN, ops, One(1.0, 0, 0, 10, 0), 10, DoChoose(At(10, 100)), One(1.0, 0, 1, 10, 0));
    ChooseOne(1);
    run, ops := OneMore(run, PLAIN, ops, One(1.0, 0, 1, 10, 0), 10, DoChoose(At(10, 100)), One(1.0, 0, 2, 10, 0));
    FailOne();
    run, ops := OneMore(run, PLAIN, ops, One(1.0, 0, 2, 10, 0), 10, DoDisconnect(A, true, 10), One(0.0, 10, 1, 10, 10));
    var out := One(0.0, 11, 0, 11, 10);
    run, ops := OneMore(run, PLAIN, ops, One(0.0, 10, 1, 10, 10), 10, DoDisconnect(A, true, 11), out);
    LookAgain();
    run, ops := OneMore(run, PLAIN, ops, out, 11, DoChoose(At(12, 100)), One(0.0, 11, 0, 12, 0));
  }

  lemma NeverFound(d: Draw)
    requires d.now >= 13 && PointOf(PLAIN, d) >= 0.0
    ensures var s := One(0.0, 11, 0, 12, 0);
            && AnyUsable(s, PLAIN, d.now) && Choose(s, PLAIN, d) == (One(0.0, 11, 0, d.now, 0), None)
  {
    var s := One(0.0, 11, 0, 12, 0);
    assert RetryInterval(PLAIN) == 1 && Good(s.dst[0], EPS, Context(EPS, 1, d.now));
    var p := One(0.0, 11, 0, d.now, 0);
    assert Prepared(s, PLAIN, d.now) == p;
    assert HintScan(p, 0, PointOf(PLAIN, d), 0, d.probe) == (p, None);
  }

  // ------------------------------------------------------ a top that is forgotten

  const TOP: Config := Config(Single, true, 0, 0)

  /** A table of two, of weights 2 and 1, under the single policy. */
  function Two(failed: int, conns: nat, others: nat, top: nat, now: int, topFailed: int): State {
    State([Line(A, 2.0, 0.0, failed, conns), Line(B, 1.0, 0.0, 0, others)], conns + others, 0, Some(top),
          Context(if top == 0 then 2.0 else 1.0, 1, now), 0, topFailed)
  }

  lemma ScanTwo(s: State)
    requires |s.dst| == 2
    ensures RedoTop(s) == TopStep(TopStep(s, 0), 1)
  {
    var s1 := TopStep(s, 0);
    var s2 := TopStep(s1, 1);
    assert TopScan(s2, 2) == s2;
    assert TopScan(s1, 1) == TopScan(s2, 2);
  }

  lemma AddTwo() returns (s: State)
    ensures s == Apply(Start, TOP, DoChange(Add(A, 2.0))) && WellFormed(s)
    ensures Apply(s, TOP, DoChange(Add(B, 1.0))) == Two(0, 0, 0, 0, 10, 0)
  {
    var e := Line(A, 2.0, 0.0, 0, 0);
    s := State([e], 0, 0, Some(0), Context(2.0, 1, 10), 0, 0);
    var a := Appended(Start, A, 2.0, false, 0, 0.0);
    assert a.dst == [e] && RetryInterval(TOP) == 1;
    var p := UpdateCtx(a, TOP, 10);
    assert TopScan(TopStep(p, 0), 1) == TopStep(p, 0) == s;
    var b := Appended(s, B, 1.0, false, 0, 0.0);
    assert b.dst == Two(0, 0, 0, 0, 10, 0).dst && Index(s.dst, B) == 1;
    var q := UpdateCtx(b, TOP, 10);
    ScanTwo(q);
    assert TopStep(q, 0) == Two(0, 0, 0, 0, 10, 0) == TopStep(TopStep(q, 0), 1);
  }

  lemma ChooseTop(conns: nat)
    ensures Apply(Two(0, conns, 0, 0, 10, 0), TOP, DoChoose(At(10, 0))) == Two(0, conns + 1, 0, 0, 10, 0)
  {
    var s := Two(0, conns, 0, 0, 10, 0);
    assert RetryInterval(TOP) == 1 && Prepared(s, TOP, 10) == s;
    assert Acquired(s, 0).dst == Two(0, conns + 1, 0, 0, 10, 0).dst;
  }

  /** The first failure hands the top over; the second only moves the stamp. */
  lemma FailTop()
    ensures MayDisconnect(Two(0, 2, 0, 0, 10, 0), A) && MayDisconnect(Two(10, 1, 0, 1, 10, 10), A)
    ensures Apply(Two(0, 2, 0, 0, 10, 0), TOP, DoDisconnect(A, true, 10)) == Two(10, 1, 0, 1, 10, 10)
    ensures Apply(Two(10, 1, 0, 1, 10, 10), TOP, DoDisconnect(A, true, 11)) == Two(11, 0, 0, 1, 11, 10)
  {
    var s, t := Two(0, 2, 0, 0, 10, 0), Two(10, 1, 0, 1, 10, 10);
    assert RetryInterval(TOP) == 1 && Index(s.dst, A) == 0 && Index(t.dst, A) == 0;
    var u := Two(0, 1, 0, 0, 10, 0);
    assert Released(s, 0).dst == u.dst && Released(s, 0) == u;
    var v := u.(dst := Two(10, 1, 0, 0, 10, 0).dst, ctx := Context(EPS, 1, 10));
    assert u.dst[0 := u.dst[0].(failed := 10)] == v.dst;
    ScanTwo(v);
    assert TopStep(v, 0) == v;
    assert DstFailed(u, TOP, 0, 10) == Two(10, 1, 0, 1, 10, 10);
    var w := Two(10, 0, 0, 1, 10, 10);
    assert Released(t, 0).dst == w.dst && Released(t, 0) == w;
    assert w.dst[0 := w.dst[0].(failed := 11)] == Two(11, 0, 0, 1, 11, 10).dst;
  }

  /** The look at the top comes while the heavier destination is still out. */
  lemma LookAtTop()
    ensures Apply(Two(11, 0, 0, 1, 11, 10), TOP, DoChoose(At(12, 0))) == Two(11, 0, 1, 1, 12, 0)
  {
    var s := Two(11, 0, 0, 1, 11, 10);
    var p := Two(11, 0, 0, 1, 12, 10);
    assert RetryInterval(TOP) == 1 && UpdateCtx(s, TOP, 12) == p;
    ScanTwo(p);
    assert TopStep(p, 0) == p && TopStep(p, 1) == p;
    assert Acquired(Two(11, 0, 0, 1, 12, 0), 1).dst == Two(11, 0, 1, 1, 12, 0).dst;
  }

  /** From `from` on row 0 is usable and outweighs the top, and yet every choice goes to
      the top and leaves it there. */
  ghost predicate PassedOverFrom(s: State, cnf: Config, from: int) {
    && WellFormed(s) && s.top.Some? && |s.dst| > 0
    && forall d: Draw | d.now >= from :: PassesOver(s, cnf, d)
  }

  ghost predicate PassesOver(s: State, cnf: Config, d: Draw)
    requires WellFormed(s) && s.top.Some? && |s.dst| > 0
  {
    var (t, r) := Choose(s, cnf, d);
    && Good(s.dst[0], Bar(s), Context(EPS, RetryInterval(cnf), d.now))
    && r == s.top == t.top && t.topFailed == s.topFailed == 0
    && |t.dst| == |s.dst| && t.dst[0] == s.dst[0]
  }

  /** The heavier of two destinations fails twice, the second time while it is out: from
      then on the lighter one stays the top. */
  lemma OverlookedForever() returns (run: seq<State>, ops: seq<Op>)
    ensures IsRun(run, TOP, ops) && InOrder(ops) && PassedOverFrom(run[|run| - 1], TOP, 13)
  {
    run, ops := TopUsed();
    run, ops := TopLost(run, ops);
    forall d: Draw | d.now >= 13 ensures PassesOver(Two(11, 0, 1, 1, 12, 0), TOP, d) { NeverTop(d); }
  }

  lemma TopUsed() returns (run: seq<State>, ops: seq<Op>)
    ensures RunTo(run, TOP, ops, Two(0, 2, 0, 0, 10, 0), 10)
  {
    run, ops := [Start], [];
    var s := AddTwo();
    run, ops := OneMore(run, TOP, ops, Start, 10, DoChange(Add(A, 2.0)), s);
    run, ops := OneMore(run, TOP, ops, s, 10, DoChange(Add(B, 1.0)), Two(0, 0, 0, 0, 10, 0));
    ChooseTop(0);
    run, ops := OneMore(run, TOP, ops, Two(0, 0, 0, 0, 10, 0), 10, DoChoose(At(10, 0)), Two(0, 1, 0, 0, 10, 0));
    ChooseTop(1);
    run, ops := OneMore(run, TOP, ops, Two(0, 1, 0, 0, 10, 0), 10, DoChoose(At(10, 0)), Two(0, 2, 0, 0, 10, 0));
  }

  lemma TopLost(before: seq<State>, done: seq<Op>) returns (run: seq<State>, ops: seq<Op>)
    requires RunTo(before, TOP, done, Two(0, 2, 0, 0, 10, 0), 10)
    ensures RunTo(run, TOP, ops, Two(11, 0, 1, 1, 12, 0), 12)
  {
    run, ops := before, done;
    FailTop();
    run, ops := OneMore(run, TOP, ops, Two(0, 2, 0, 0, 10, 0), 10, DoDisconnect(A, true, 10), Two(10, 1, 0, 1, 10, 10));
    var out := Two(11, 0, 0, 1, 11, 10);
    run, ops := OneMore(run, TOP, ops, Two(10, 1, 0, 1, 10, 10), 10, DoDisconnect(A, true, 11), out);
    LookAtTop();
    run, ops := OneMore(run, TOP, ops, out, 11, DoChoose(At(12, 0)), Two(11, 0, 1, 1, 12, 0));
  }

  lemma NeverTop(d: Draw)
    requires d.now >= 13
    ensures PassesOver(Two(11, 0, 1, 1, 12, 0), TOP, d)
  {
    var s := Two(11, 0, 1, 1, 12, 0);
    assert RetryInterval(TOP) == 1 && Bar(s) == FACTOR;
    assert Prepared(s, TOP, d.now) == Two(11, 0, 1, 1, d.now, 0);
  }

  // ----------------------------- a failed destination chosen again, with top-weighting

  const MIX: Config := Config(Source, true, 0, 0)
  const HIGH: Hint := 0xC000_0000   // three quarters of the way

  function AddAt(a: Addr, weight: real, t: int): Change {
    Change(a, weight, false, 0, t, 0.0)
  }

  function Three(a: Entry, b: Entry, c: Entry, top: nat, min: real, now: int, mapFailed: int, topFailed: int): State {
    State([a, b, c], a.conns + b.conns + c.conns, 0, Some(top), Context(min, 1, now), mapFailed, topFailed)
  }

  lemma ScanThree(s: State)
    requires |s.dst| == 3
    ensures RedoTop(s) == TopStep(TopStep(TopStep(s, 0), 1), 2)
  {
    var s1 := TopStep(s, 0);
    var s2 := TopStep(s1, 1);
    var s3 := TopStep(s2, 2);
    assert TopScan(s3, 3) == s3;
    assert TopScan(s2, 2) == TopScan(s3, 3);
    assert TopScan(s1, 1) == TopScan(s2, 2);
  }

  lemma RedoThree(s: State, u: real, v: real, w: real)
    requires |s.dst| == 3 && u + v + w > 0.0
    requires OwnWeight(s, 0) == u && OwnWeight(s, 1) == v && OwnWeight(s, 2) == w
    ensures RedoMap(s).dst == [s.dst[0].(share := u / (u + v + w)), s.dst[1].(share := (u + v) / (u + v + w)),
                               s.dst[2].(share := 1.0)]
  {
    assert GoodWeight(s, 0) == 0.0 && GoodWeight(s, 1) == u && GoodWeight(s, 2) == u + v;
    assert GoodWeight(s, 3) == u + v + w;
    Scale(0.0, 0.0, u + v + w);
  }

  // The table from the first destination on, all at time `t`.

  function First(t: int): State {
    State([Line(A, 2.0, 1.0, 0, 0)], 0, 0, Some(0), Context(2.0, 1, t), 0, 0)
  }

  function Second(t: int): State {
    State([Line(A, 2.0, 1.0, 0, 0), Line(B, 1.0, 1.0, 0, 0)], 0, 0, Some(0), Context(2.0, 1, t), 0, 0)
  }

  function All(t: int, conns: nat): State {
    Three(Line(A, 2.0, 1.0, 0, conns), Line(B, 1.0, 1.0, 0, 0), Line(C, 1.0, 1.0, 0, 0), 0, 2.0, t, 0, 0)
  }

  /** A has failed at `t`. */
  function HeavyOut(t: int, conns: nat): State {
    Three(Line(A, 2.0, 0.0, t, 0), Line(B, 1.0, 0.5, 0, 0), Line(C, 1.0, 1.0, 0, conns), 1, 1.0, t, t, t)
  }

  /** And C a second later. */
  function BothOut(t: int): State {
    Three(Line(A, 2.0, 0.0, t, 0), Line(B, 1.0, 1.0, 0, 0), Line(C, 1.0, 1.0, t + 1, 0), 1, 1.0, t + 1, t + 1, t)
  }

  lemma AddFirst(t: int)
    requires t > 1
    ensures Apply(Start, MIX, DoChange(AddAt(A, 2.0, t))) == First(t)
  {
    var p := UpdateCtx(Appended(Start, A, 2.0, false, 0, 0.0), MIX, t);
    var q := p.(top := Some(0), ctx := Context(2.0, 1, t));
    assert RetryInterval(MIX) == 1;
    assert TopScan(TopStep(p, 0), 1) == TopStep(p, 0) == q;
    assert GoodWeight(q, 0) == 0.0 && GoodWeight(q, 1) == 2.0;
    assert RedoMap(q).dst == First(t).dst;
  }

  lemma AddSecond(t: int)
    requires t > 1
    ensures Apply(First(t), MIX, DoChange(AddAt(B, 1.0, t))) == Second(t)
  {
    var s := First(t);
    assert RetryInterval(MIX) == 1 && Index(s.dst, B) == 1;
    var p := UpdateCtx(Appended(s, B, 1.0, false, 0, 0.0), MIX, t);
    ScanTwo(p);
    var q := p.(top := Some(0), ctx := Context(2.0, 1, t));
    assert TopStep(p, 0) == q && TopStep(q, 1) == q;
    assert GoodWeight(q, 0) == 0.0 && GoodWeight(q, 1) == 2.0 && GoodWeight(q, 2) == 2.0;
    assert RedoMap(q).dst == Second(t).dst;
  }

  lemma AddThird(t: int)
    requires t > 1
    ensures Apply(Second(t), MIX, DoChange(AddAt(C, 1.0, t))) == All(t, 0)
  {
    var s := Second(t);
    assert RetryInterval(MIX) == 1 && Index(s.dst, C) == 2;
    var p := UpdateCtx(Appended(s, C, 1.0, false, 0, 0.0), MIX, t);
    ScanThree(p);
    var q := p.(top := Some(0), ctx := Context(2.0, 1, t));
    assert TopStep(p, 0) == q && TopStep(q, 1) == q && TopStep(q, 2) == q;
    RedoThree(q, 2.0, 0.0, 0.0);
    assert RedoMap(q).dst == All(t, 0).dst;
  }

  /** A lookup without probing that stops at row `r`. */
  lemma Stops(s: State, x: real, probe: nat -> Probe, r: nat)
    requires |s.dst| == 3 && r < 3 && x < s.dst[r].share && forall i :: 0 <= i < r ==> !(x < s.dst[i].share)
    ensures HintScan(s, 0, x, 0, probe) == (s, Some(r))
  {
    LookupChangesNothing(s, 0, x, probe);
    assert HintScan(s, r, x, 0, probe).1 == Some(r);
    if r == 2 { assert HintScan(s, 1, x, 0, probe).1 == Some(r); }
  }

  lemma UseHeavy(t: int)
    requires t > 1
    ensures Apply(All(t, 0), MIX, DoChoose(At(t, 100))) == All(t, 1)
  {
    var s := All(t, 0);
    assert RetryInterval(MIX) == 1 && Prepared(s, MIX, t) == s;
    PointRange(100);
    Stops(s, Point(100), At(t, 100).probe, 0);
    assert Acquired(s, 0).dst == All(t, 1).dst;
  }

  lemma FailHeavy(t: int)
    requires t > 1
    ensures MayDisconnect(All(t, 1), A) && Apply(All(t, 1), MIX, DoDisconnect(A, true, t)) == HeavyOut(t, 0)
  {
    var s := All(t, 0);
    assert RetryInterval(MIX) == 1 && Index(All(t, 1).dst, A) == 0;
    assert Released(All(t, 1), 0).dst == s.dst;
    var v := s.(dst := s.dst[0 := Line(A, 2.0, 1.0, t, 0)], ctx := Context(EPS, 1, t));
    HandOver(v, t);
    var q := v.(top := Some(1), ctx := Context(1.0, 1, t), topFailed := t);
    RedoThree(q, 0.0, 1.0, 1.0);
    var total := 0.0 + 1.0 + 1.0;
    assert total == 2.0 && 0.0 / total == 0.0 && (0.0 + 1.0) / total == 0.5;
    assert RedoMap(q).dst == [q.dst[0].(share := 0.0), q.dst[1].(share := 0.5), q.dst[2].(share := 1.0)];
    assert RedoMap(q).dst == HeavyOut(t, 0).dst;
    assert DstFailed(s, MIX, 0, t) == RedoMap(q).(mapFailed := t);
  }

  lemma HandOver(v: State, t: int)
    requires t > 1 && v == All(t, 0).(dst := All(t, 0).dst[0 := Line(A, 2.0, 1.0, t, 0)], ctx := Context(EPS, 1, t))
    ensures RedoTop(v) == v.(top := Some(1), ctx := Context(1.0, 1, t))
  {
    var q := v.(top := Some(1), ctx := Context(1.0, 1, t));
    ScanThree(v);
    assert TopStep(v, 0) == v && TopStep(v, 1) == q && TopStep(q, 2) == q;
  }

  lemma UseLight(t: int)
    requires t > 1
    ensures Apply(HeavyOut(t, 0), MIX, DoChoose(At(t, HIGH))) == HeavyOut(t, 1)
  {
    var s := HeavyOut(t, 0);
    assert RetryInterval(MIX) == 1 && Prepared(s, MIX, t) == s;
    PointRange(HIGH);
    assert 0.5 <= Point(HIGH) < 1.0;
    Stops(s, Point(HIGH), At(t, HIGH).probe, 2);
    assert Acquired(s, 2).dst == HeavyOut(t, 1).dst;
  }

  lemma FailLight(t: int)
    requires t > 1
    ensures MayDisconnect(HeavyOut(t, 1), C)
    ensures Apply(HeavyOut(t, 1), MIX, DoDisconnect(C, true, t + 1)) == BothOut(t)
  {
    var s := HeavyOut(t, 0);
    assert RetryInterval(MIX) == 1;
    assert HeavyOut(t, 1).dst[0].addr == A && HeavyOut(t, 1).dst[1].addr == B && HeavyOut(t, 1).dst[2].addr == C;
    assert Index(HeavyOut(t, 1).dst, C) == 2;
    assert Released(HeavyOut(t, 1), 2).dst == s.dst;
    var v := s.(dst := s.dst[2 := Line(C, 1.0, 1.0, t + 1, 0)], ctx := Context(1.0, 1, t + 1));
    RedoThree(v, 0.0, 1.0, 0.0);
    assert RedoMap(v).dst == BothOut(t).dst;
    assert DstFailed(s, MIX, 2, t + 1) == RedoMap(v).(mapFailed := t + 1);
  }

  /** The state in which the choice two seconds after the first failure looks its point
      up: the top is back with the heavy destination, the map is not redone. */
  function TopBack(t: int, failed: int, conns: nat): State {
    Three(Line(A, 2.0, 0.0, t, 0), Line(B, 1.0, 1.0, failed, conns), Line(C, 1.0, 1.0, t + 1, 0),
          0, 2.0, t + 2, t + 1, 0)
  }

  lemma TopReturns(t: int)
    requires t > 1
    ensures Prepared(BothOut(t), MIX, t + 2) == TopBack(t, 0, 0)
  {
    var s := UpdateCtx(BothOut(t), MIX, t + 2);
    var q := s.(top := Some(0), ctx := Context(2.0, 1, t + 2));
    assert RetryInterval(MIX) == 1 && s.ctx == Context(1.0, 1, t + 2);
    ScanThree(s);
    assert TopStep(s, 0) == q && TopStep(q, 1) == q && TopStep(q, 2) == q;
  }

  /** The map still leads to the light destination, which is no longer eligible, so its
      failure does not redo the map. */
  lemma LightTwice(t: int)
    requires t > 1 && Inv(BothOut(t), MIX)
    ensures ChosenTwice(BothOut(t), MIX, At(t + 2, 100), 1)
  {
    var d := At(t + 2, 100);
    assert RetryInterval(MIX) == 1;
    PointRange(100);
    TopReturns(t);
    Stops(TopBack(t, 0, 0), Point(100), d.probe, 1);
    assert Acquired(TopBack(t, 0, 0), 1).dst == TopBack(t, 0, 1).dst;
    assert Choose(BothOut(t), MIX, d) == (TopBack(t, 0, 1), Some(1));
    assert Released(TopBack(t, 0, 1), 1).dst == TopBack(t, 0, 0).dst;
    var u := TopBack(t, t + 2, 0);
    assert TopBack(t, 0, 0).dst[1 := Line(B, 1.0, 1.0, t + 2, 0)] == u.dst;
    assert DstFailed(TopBack(t, 0, 0), MIX, 1, t + 2) == u;
    assert Prepared(u, MIX, t + 2) == u;
    Stops(u, Point(100), d.probe, 1);
  }

  lemma ThreeAdded(t: int) returns (run: seq<State>, ops: seq<Op>)
    requires t > 1
    ensures RunTo(run, MIX, ops, All(t, 0), t)
  {
    run, ops := [Start], [];
    AddFirst(t);
    run, ops := OneMore(run, MIX, ops, Start, t, DoChange(AddAt(A, 2.0, t)), First(t));
    AddSecond(t);
    run, ops := OneMore(run, MIX, ops, First(t), t, DoChange(AddAt(B, 1.0, t)), Second(t));
    AddThird(t);
    run, ops := OneMore(run, MIX, ops, Second(t), t, DoChange(AddAt(C, 1.0, t)), All(t, 0));
  }

  lemma BothFail(t: int) returns (run: seq<State>, ops: seq<Op>)
    requires t > 1
    ensures RunTo(run, MIX, ops, BothOut(t), t + 1)
  {
    run, ops := ThreeAdded(t);
    UseHeavy(t);
    run, ops := OneMore(run, MIX, ops, All(t, 0), t, DoChoose(At(t, 100)), All(t, 1));
    FailHeavy(t);
    run, ops := OneMore(run, MIX, ops, All(t, 1), t, DoDisconnect(A, true, t), HeavyOut(t, 0));
    UseLight(t);
    run, ops := OneMore(run, MIX, ops, HeavyOut(t, 0), t, DoChoose(At(t, HIGH)), HeavyOut(t, 1));
    FailLight(t);
    run, ops := OneMore(run, MIX, ops, HeavyOut(t, 1), t, DoDisconnect(C, true, t + 1), BothOut(t));
  }

  /** With `--top`, a run after which a destination fails and is chosen again at once. */
  lemma TopRepeats(t: int) returns (run: seq<State>, ops: seq<Op>)
    requires t > 1
    ensures UsesMap(MIX) && MIX.top && MIX.extra == 0
    ensures RunTo(run, MIX, ops, BothOut(t), t + 1) && ChosenTwice(BothOut(t), MIX, At(t + 2, 100), 1)
  {
    run, ops := BothFail(t);
    RunRefines(run, MIX, ops);
    LightTwice(t);
  }

  // --------------------------------- a failed destination chosen again, with probing

  const PROBING: Config := Config(Source, false, 0, 5)

  function Probed(failed: int, checked: int, conns: nat): State {
    State([Entry(A, 1.0, Usage(1.0, conns), 1.0, checked, failed, conns, true)], conns, 0, None,
          Context(EPS, 1, 10), 0, 0)
  }

  function Answer(ready: bool): Draw {
    Draw(10, 100, 100, (i: nat) => Probe(10, ready, 10, 10))
  }

  lemma AddProbed()
    ensures Apply(Start, PROBING, DoChange(Change(A, 1.0, true, 0, 10, 0.0))) == Probed(0, 0, 0)
  {
    var s := Appended(Start, A, 1.0, true, 0, 0.0);
    assert RetryInterval(PROBING) == 1;
    var p := UpdateCtx(s, PROBING, 10);
    assert GoodWeight(p, 0) == 0.0 && GoodWeight(p, 1) == 1.0;
    assert RedoMap(p).dst[0].share == 1.0;
    assert RedoMap(p).dst == Probed(0, 0, 0).dst;
  }

  /** The failed probe stamps the row and leaves its part of the map. */
  lemma ProbeFails()
    ensures Apply(Probed(0, 0, 0), PROBING, DoChoose(Answer(false))) == Probed(10, 0, 0)
  {
    var s, d := Probed(0, 0, 0), Answer(false);
    assert RetryInterval(PROBING) == 1 && Prepared(s, PROBING, 10) == s;
    PointRange(100);
    assert CheckAt(s, 0, 5, d.probe(0)).dst == Probed(10, 0, 0).dst;
    assert HintScan(Probed(10, 0, 0), 1, Point(100), 5, d.probe) == (Probed(10, 0, 0), None);
    assert HintScan(s, 0, Point(100), 5, d.probe) == (Probed(10, 0, 0), None);
  }

  lemma AnsweredTwice()
    requires Inv(Probed(10, 0, 0), PROBING)
    ensures ChosenTwice(Probed(10, 0, 0), PROBING, Answer(true), 0)
  {
    var s, d := Probed(10, 0, 0), Answer(true);
    assert RetryInterval(PROBING) == 1 && Prepared(s, PROBING, 10) == s;
    PointRange(100);
    assert CheckAt(s, 0, 5, d.probe(0)).dst == Probed(10, 10, 0).dst;
    assert HintScan(s, 0, Point(100), 5, d.probe) == (Probed(10, 10, 0), Some(0));
    assert Acquired(Probed(10, 10, 0), 0).dst == Probed(10, 10, 1).dst;
    assert Choose(s, PROBING, d) == (Probed(10, 10, 1), Some(0));
    assert Released(Probed(10, 10, 1), 0).dst == Probed(10, 10, 0).dst;
    var u := Probed(10, 10, 0);
    assert DstFailed(u, PROBING, 0, 10).dst == u.dst && DstFailed(u, PROBING, 0, 10) == u;
    assert Prepared(u, PROBING, 10) == u;
    assert HintScan(u, 0, Point(100), 5, d.probe).1 == Some(0);
  }

  /** With probing: a destination marked by a failed probe keeps its part, answers the
      next probe, fails, and is chosen again at once. */
  lemma ProbedRepeats() returns (run: seq<State>, ops: seq<Op>)
    ensures UsesMap(PROBING) && !PROBING.top && PROBING.extra > 0 && Answer(true).hint >= 5
    ensures RunTo(run, PROBING, ops, Probed(10, 0, 0), 10) && ChosenTwice(Probed(10, 0, 0), PROBING, Answer(true), 0)
  {
    run, ops := [Start], [];
    AddProbed();
    run, ops := OneMore(run, PROBING, ops, Start, 10, DoChange(Change(A, 1.0, true, 0, 10, 0.0)), Probed(0, 0, 0));
    ProbeFails();
    run, ops := OneMore(run, PROBING, ops, Probed(0, 0, 0), 10, DoChoose(Answer(false)), Probed(10, 0, 0));
    RunRefines(run, PROBING, ops);
    AnsweredTwice();
  }

  // ------------------------------------- the single policy misses a usable destination

  /** Two destinations of weight 1, by the times they failed and their connections. */
  function Pair(fa: int, fb: int, ca: nat, cb: nat, top: nat, min: real, now: int, topFailed: int): State {
    State([Line(A, 1.0, 0.0, fa, ca), Line(B, 1.0, 0.0, fb, cb)], ca + cb, 0, Some(top), Context(min, 1, now),
          0, topFailed)
  }

  lemma AddPair(t: int) returns (s: State)
    requires t > 1
    ensures s == Apply(Start, TOP, DoChange(AddAt(A, 1.0, t))) && WellFormed(s)
    ensures Apply(s, TOP, DoChange(AddAt(B, 1.0, t))) == Pair(0, 0, 0, 0, 0, 1.0, t, 0)
  {
    s := State([Line(A, 1.0, 0.0, 0, 0)], 0, 0, Some(0), Context(1.0, 1, t), 0, 0);
    assert RetryInterval(TOP) == 1;
    var p := UpdateCtx(Appended(Start, A, 1.0, false, 0, 0.0), TOP, t);
    assert TopScan(TopStep(p, 0), 1) == TopStep(p, 0) == s;
    assert Index(s.dst, B) == 1;
    var q := UpdateCtx(Appended(s, B, 1.0, false, 0, 0.0), TOP, t);
    ScanTwo(q);
    assert TopStep(q, 0) == Pair(0, 0, 0, 0, 0, 1.0, t, 0) == TopStep(TopStep(q, 0), 1);
  }

  lemma UsePair(fa: int, ca: nat, cb: nat, top: nat, t: int, topFailed: int)
    requires t > 1 && top < 2 && (topFailed == 0 || topFailed == t) && (top == 0 ==> fa == 0)
    ensures Apply(Pair(fa, 0, ca, cb, top, 1.0, t, topFailed), TOP, DoChoose(At(t, 0)))
         == if top == 0 then Pair(fa, 0, ca + 1, cb, top, 1.0, t, topFailed)
            else Pair(fa, 0, ca, cb + 1, top, 1.0, t, topFailed)
  {
    var s := Pair(fa, 0, ca, cb, top, 1.0, t, topFailed);
    assert RetryInterval(TOP) == 1 && Prepared(s, TOP, t) == s;
    assert Acquired(s, top).dst == if top == 0 then Pair(fa, 0, ca + 1, cb, top, 1.0, t, topFailed).dst
                                   else Pair(fa, 0, ca, cb + 1, top, 1.0, t, topFailed).dst;
  }

  lemma PairIndex(fa: int, fb: int, ca: nat, cb: nat, top: nat, min: real, now: int, topFailed: int)
    ensures var s := Pair(fa, fb, ca, cb, top, min, now, topFailed); Index(s.dst, A) == 0 && Index(s.dst, B) == 1
  {
    var s := Pair(fa, fb, ca, cb, top, min, now, topFailed);
    assert s.dst[0].addr == A && s.dst[1].addr == B;
  }

  /** The top A fails and hands over to B. */
  lemma FailFirstTop(t: int)
    requires t > 1
    ensures MayDisconnect(Pair(0, 0, 2, 0, 0, 1.0, t, 0), A)
    ensures Apply(Pair(0, 0, 2, 0, 0, 1.0, t, 0), TOP, DoDisconnect(A, true, t)) == Pair(t, 0, 1, 0, 1, 1.0, t, t)
  {
    PairIndex(0, 0, 2, 0, 0, 1.0, t, 0);
    var u := Pair(0, 0, 1, 0, 0, 1.0, t, 0);
    assert RetryInterval(TOP) == 1 && Released(Pair(0, 0, 2, 0, 0, 1.0, t, 0), 0).dst == u.dst;
    var v := Pair(t, 0, 1, 0, 0, EPS, t, 0);
    assert u.dst[0 := u.dst[0].(failed := t)] == v.dst;
    ScanTwo(v);
    assert TopStep(v, 0) == v && TopStep(v, 1) == Pair(t, 0, 1, 0, 1, 1.0, t, 0);
    assert DstFailed(u, TOP, 0, t) == Pair(t, 0, 1, 0, 1, 1.0, t, t);
  }

  /** The top B fails with nobody left to take over. */
  lemma FailSecondTop(t: int)
    requires t > 1
    ensures MayDisconnect(Pair(t, 0, 1, 3, 1, 1.0, t, t), B)
    ensures Apply(Pair(t, 0, 1, 3, 1, 1.0, t, t), TOP, DoDisconnect(B, true, t)) == Pair(t, t, 1, 2, 1, EPS, t, t)
  {
    PairIndex(t, 0, 1, 3, 1, 1.0, t, t);
    var u := Pair(t, 0, 1, 2, 1, 1.0, t, t);
    assert RetryInterval(TOP) == 1 && Released(Pair(t, 0, 1, 3, 1, 1.0, t, t), 1).dst == u.dst;
    var v := Pair(t, t, 1, 2, 1, EPS, t, t);
    assert u.dst[1 := u.dst[1].(failed := t)] == v.dst;
    ScanTwo(v);
    assert TopStep(v, 0) == v && TopStep(v, 1) == v;
    assert DstFailed(u, TOP, 1, t) == v;
  }

  /** Failures while out only move the stamp. */
  lemma FailOutA(t: int)
    requires t > 1
    ensures MayDisconnect(Pair(t, t, 1, 2, 1, EPS, t, t), A)
    ensures Apply(Pair(t, t, 1, 2, 1, EPS, t, t), TOP, DoDisconnect(A, true, t + 1))
         == Pair(t + 1, t, 0, 2, 1, EPS, t + 1, t)
  {
    PairIndex(t, t, 1, 2, 1, EPS, t, t);
    var u := Pair(t, t, 0, 2, 1, EPS, t, t);
    assert RetryInterval(TOP) == 1 && Released(Pair(t, t, 1, 2, 1, EPS, t, t), 0).dst == u.dst;
    assert u.dst[0 := u.dst[0].(failed := t + 1)] == Pair(t + 1, t, 0, 2, 1, EPS, t + 1, t).dst;
  }

  lemma FailOutB(fa: int, fb: int, cb: nat, now: int, topFailed: int)
    requires fb + 1 == now
    ensures MayDisconnect(Pair(fa, fb, 0, cb + 1, 1, EPS, now, topFailed), B)
    ensures Apply(Pair(fa, fb, 0, cb + 1, 1, EPS, now, topFailed), TOP, DoDisconnect(B, true, now))
         == Pair(fa, now, 0, cb, 1, EPS, now, topFailed)
  {
    PairIndex(fa, fb, 0, cb + 1, 1, EPS, now, topFailed);
    var u := Pair(fa, fb, 0, cb, 1, EPS, now, topFailed);
    assert RetryInterval(TOP) == 1 && Released(Pair(fa, fb, 0, cb + 1, 1, EPS, now, topFailed), 1).dst == u.dst;
    assert u.dst[1 := u.dst[1].(failed := now)] == Pair(fa, now, 0, cb, 1, EPS, now, topFailed).dst;
  }

  /** The look at the top finds nobody and is the last. */
  lemma LookInVain(t: int)
    requires t > 1
    ensures Apply(Pair(t + 1, t + 1, 0, 1, 1, EPS, t + 1, t), TOP, DoChoose(At(t + 2, 0)))
         == Pair(t + 1, t + 1, 0, 1, 1, EPS, t + 2, 0)
  {
    var s, p := Pair(t + 1, t + 1, 0, 1, 1, EPS, t + 1, t), Pair(t + 1, t + 1, 0, 1, 1, EPS, t + 2, t);
    assert RetryInterval(TOP) == 1 && UpdateCtx(s, TOP, t + 2) == p;
    ScanTwo(p);
    assert TopStep(p, 0) == p && TopStep(p, 1) == p;
  }

  lemma PairUsed(t: int) returns (run: seq<State>, ops: seq<Op>)
    requires t > 1
    ensures RunTo(run, TOP, ops, Pair(0, 0, 2, 0, 0, 1.0, t, 0), t)
  {
    run, ops := [Start], [];
    var s := AddPair(t);
    run, ops := OneMore(run, TOP, ops, Start, t, DoChange(AddAt(A, 1.0, t)), s);
    run, ops := OneMore(run, TOP, ops, s, t, DoChange(AddAt(B, 1.0, t)), Pair(0, 0, 0, 0, 0, 1.0, t, 0));
    UsePair(0, 0, 0, 0, t, 0);
    run, ops := OneMore(run, TOP, ops, Pair(0, 0, 0, 0, 0, 1.0, t, 0), t, DoChoose(At(t, 0)),
                        Pair(0, 0, 1, 0, 0, 1.0, t, 0));
    UsePair(0, 1, 0, 0, t, 0);
    run, ops := OneMore(run, TOP, ops, Pair(0, 0, 1, 0, 0, 1.0, t, 0), t, DoChoose(At(t, 0)),
                        Pair(0, 0, 2, 0, 0, 1.0, t, 0));
  }

  lemma SecondUsed(before: seq<State>, done: seq<Op>, t: int) returns (run: seq<State>, ops: seq<Op>)
    requires t > 1 && RunTo(before, TOP, done, Pair(0, 0, 2, 0, 0, 1.0, t, 0), t)
    ensures RunTo(run, TOP, ops, Pair(t, 0, 1, 3, 1, 1.0, t, t), t)
  {
    FailFirstTop(t);
    run, ops := OneMore(before, TOP, done, Pair(0, 0, 2, 0, 0, 1.0, t, 0), t, DoDisconnect(A, true, t),
                        Pair(t, 0, 1, 0, 1, 1.0, t, t));
    UsePair(t, 1, 0, 1, t, t);
    run, ops := OneMore(run, TOP, ops, Pair(t, 0, 1, 0, 1, 1.0, t, t), t, DoChoose(At(t, 0)),
                        Pair(t, 0, 1, 1, 1, 1.0, t, t));
    UsePair(t, 1, 1, 1, t, t);
    run, ops := OneMore(run, TOP, ops, Pair(t, 0, 1, 1, 1, 1.0, t, t), t, DoChoose(At(t, 0)),
                        Pair(t, 0, 1, 2, 1, 1.0, t, t));
    UsePair(t, 1, 2, 1, t, t);
    run, ops := OneMore(run, TOP, ops, Pair(t, 0, 1, 2, 1, 1.0, t, t), t, DoChoose(At(t, 0)),
                        Pair(t, 0, 1, 3, 1, 1.0, t, t));
  }

  lemma BothOutAgain(before: seq<State>, done: seq<Op>, t: int) returns (run: seq<State>, ops: seq<Op>)
    requires t > 1 && RunTo(before, TOP, done, Pair(t, 0, 1, 3, 1, 1.0, t, t), t)
    ensures RunTo(run, TOP, ops, Pair(t + 1, t + 1, 0, 1, 1, EPS, t + 1, t), t + 1)
  {
    FailSecondTop(t);
    run, ops := OneMore(before, TOP, done, Pair(t, 0, 1, 3, 1, 1.0, t, t), t, DoDisconnect(B, true, t),
                        Pair(t, t, 1, 2, 1, EPS, t, t));
    FailOutA(t);
    run, ops := OneMore(run, TOP, ops, Pair(t, t, 1, 2, 1, EPS, t, t), t, DoDisconnect(A, true, t + 1),
                        Pair(t + 1, t, 0, 2, 1, EPS, t + 1, t));
    FailOutB(t + 1, t, 1, t + 1, t);
    run, ops := OneMore(run, TOP, ops, Pair(t + 1, t, 0, 2, 1, EPS, t + 1, t), t + 1, DoDisconnect(B, true, t + 1),
                        Pair(t + 1, t + 1, 0, 1, 1, EPS, t + 1, t));
  }

  lemma TopOutOnceMore(before: seq<State>, done: seq<Op>, t: int) returns (run: seq<State>, ops: seq<Op>)
    requires t > 1 && RunTo(before, TOP, done, Pair(t + 1, t + 1, 0, 1, 1, EPS, t + 1, t), t + 1)
    ensures RunTo(run, TOP, ops, Pair(t + 1, t + 2, 0, 0, 1, EPS, t + 2, 0), t + 2)
  {
    LookInVain(t);
    run, ops := OneMore(before, TOP, done, Pair(t + 1, t + 1, 0, 1, 1, EPS, t + 1, t), t + 1, DoChoose(At(t + 2, 0)),
                        Pair(t + 1, t + 1, 0, 1, 1, EPS, t + 2, 0));
    FailOutB(t + 1, t + 1, 0, t + 2, 0);
    run, ops := OneMore(run, TOP, ops, Pair(t + 1, t + 1, 0, 1, 1, EPS, t + 2, 0), t + 2, DoDisconnect(B, true, t + 2),
                        Pair(t + 1, t + 2, 0, 0, 1, EPS, t + 2, 0));
  }

  /** A run after which nobody is overlooked, A is usable, and the single policy finds
      nothing: its top is out and no look at it is due. */
  lemma SingleMisses(t: int) returns (run: seq<State>, ops: seq<Op>, s: State)
    requires t > 1
    ensures RunTo(run, TOP, ops, s, t + 2) && Inv(s, TOP) && NobodyOverlooked(s)
    ensures AnyCandidate(s, TOP, t + 3) && Choose(s, TOP, At(t + 3, 0)).1 == None
  {
    run, ops := PairUsed(t);
    run, ops := SecondUsed(run, ops, t);
    run, ops := BothOutAgain(run, ops, t);
    run, ops := TopOutOnceMore(run, ops, t);
    s := Pair(t + 1, t + 2, 0, 0, 1, EPS, t + 2, 0);
    RunRefines(run, TOP, ops);
    MissedPair(s, t);
  }

  lemma MissedPair(s: State, t: int)
    requires t > 1 && s == Pair(t + 1, t + 2, 0, 0, 1, EPS, t + 2, 0) && Inv(s, TOP)
    ensures NobodyOverlooked(s) && AnyCandidate(s, TOP, t + 3) && Choose(s, TOP, At(t + 3, 0)).1 == None
  {
    assert RetryInterval(TOP) == 1 && Bar(s) == FACTOR;
    SingleFinds(s, TOP, At(t + 3, 0));
    assert EPS * FACTOR <= 1.0;
    assert Good(s.dst[0], EPS * FACTOR, Context(EPS, 1, t + 3));
  }
}
