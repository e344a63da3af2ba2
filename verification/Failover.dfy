/** The synchronous connect loop: it tries destination after destination, with
    the lock released during each attempt, and still never tries one twice. */
module Failover {
  import opened RouterState
  import opened RouterInvariant
  import opened RouterObject
  import opened FreshMap

  // ------------------------------------------------- failure stamps only age

  /** Same addresses in the same rows; a failure stamp changes only to a time
      from `start` on. */
  ghost predicate Ages(s: State, t: State, start: int) {
    && |t.dst| == |s.dst|
    && forall i :: 0 <= i < |s.dst| ==>
         t.dst[i].addr == s.dst[i].addr && (t.dst[i].failed == s.dst[i].failed || t.dst[i].failed >= start)
  }

  ghost predicate ProbesFrom(probe: nat -> Probe, start: int) {
    forall i :: probe(i).failedAt >= start
  }

  /** All of these rows failed at or after `start`. */
  ghost predicate Recent(s: State, rows: set<nat>, start: int) {
    forall i :: i in rows ==> i < |s.dst| && s.dst[i].failed >= start
  }

  lemma AgesKeepsRecent(s: State, t: State, rows: set<nat>, start: int)
    requires Ages(s, t, start) && Recent(s, rows, start)
    ensures Recent(t, rows, start)
  {
  }

  lemma {:induction false} RoundScanAges(s: State, left: nat, extra: nat, probe: nat -> Probe, start: int)
    requires WellFormed(s) && left <= |s.dst| && ProbesFrom(probe, start)
    ensures Ages(s, RoundScan(s, left, extra, probe).0, start)
    decreases left
  {
    if left > 0 {
      var i := s.next;
      var s1 := Advanced(s);
      RoundScanAges(s1, left - 1, extra, probe, start);
      RoundScanAges(CheckAt(s1, i, extra, probe(i)), left - 1, extra, probe, start);
    }
  }

  lemma {:induction false} RoundScanAvoids(s: State, left: nat, extra: nat, probe: nat -> Probe,
                                           start: int, rows: set<nat>)
    requires WellFormed(s) && left <= |s.dst| && ProbesFrom(probe, start)
    requires Recent(s, rows, start) && (rows == {} || s.ctx.now <= start + s.ctx.retry)
    ensures RoundScan(s, left, extra, probe).1.Some? ==> RoundScan(s, left, extra, probe).1.value !in rows
    decreases left
  {
    if left > 0 {
      var i := s.next;
      var s1 := Advanced(s);
      assert i in rows ==> s1.dst[i].failed >= start;
      RoundScanAvoids(s1, left - 1, extra, probe, start, rows);
      RoundScanAvoids(CheckAt(s1, i, extra, probe(i)), left - 1, extra, probe, start, rows);
    }
  }

  lemma {:induction false} HintScanAges(s: State, i: nat, x: real, extra: nat, probe: nat -> Probe, start: int)
    requires i <= |s.dst| && ProbesFrom(probe, start)
    ensures Ages(s, HintScan(s, i, x, extra, probe).0, start)
    decreases |s.dst| - i
  {
    if i < |s.dst| {
      HintScanAges(s, i + 1, x, extra, probe, start);
      HintScanAges(CheckAt(s, i, extra, probe(i)), i + 1, x, extra, probe, start);
    }
  }

  lemma {:induction false} LeastScanIsEligible(s: State, i: nat, best: Option<nat>)
    requires i <= |s.dst|
    requires best.Some? ==> best.value < |s.dst| && Eligible(s, best.value)
    ensures LeastScan(s, i, best).Some? ==> Eligible(s, LeastScan(s, i, best).value)
    decreases |s.dst| - i
  {
    if i < |s.dst| {
      var bar := if best.Some? then s.dst[best.value].usage else 0.0;
      LeastScanIsEligible(s, i + 1, if s.dst[i].usage > bar && Eligible(s, i) then Some(i) else best);
    }
  }

  lemma PickAges(p: State, cnf: Config, d: Draw, start: int)
    requires WellFormed(p) && ProbesFrom(d.probe, start)
    ensures Ages(p, Pick(p, cnf, d).0, start)
  {
    match cnf.policy
    case Least =>
    case Round => RoundScanAges(p, |p.dst|, cnf.extra, d.probe, start);
    case Single =>
    case Random => HintScanAges(MapFreshened(p, cnf), 0, Point(d.random), cnf.extra, d.probe, start);
    case Source => HintScanAges(MapFreshened(p, cnf), 0, Point(d.hint), cnf.extra, d.probe, start);
  }

  lemma ChooseAges(s: State, cnf: Config, d: Draw, start: int)
    requires WellFormed(s) && ProbesFrom(d.probe, start)
    ensures Ages(s, Choose(s, cnf, d).0, start)
  {
    PreparedWellFormed(s, cnf, d.now);
    PickAges(Prepared(s, cnf, d.now), cnf, d, start);
  }

  /** The picked row under each policy that looks at failure stamps. */
  lemma PickAvoidsRecent(p: State, cnf: Config, d: Draw, start: int, rows: set<nat>)
    requires WellFormed(p) && !UsesMap(cnf) && ProbesFrom(d.probe, start)
    requires Recent(p, rows, start) && (rows == {} || p.ctx.now <= start + p.ctx.retry)
    ensures Pick(p, cnf, d).1.Some? ==> Pick(p, cnf, d).1.value !in rows
  {
    match cnf.policy
    case Least => LeastScanIsEligible(p, 0, None);
    case Round => RoundScanAvoids(p, |p.dst|, cnf.extra, d.probe, start, rows);
    case Single =>
  }

  /** What the two map policies need: only the map decides, and it is fresh. */
  ghost predicate MapFits(s: State, cnf: Config, clock: int) {
    UsesMap(cnf) ==> MapDecides(cnf) && Fresh(s, cnf, clock)
  }

  /** And of a choice: the clock has not gone back, the point is not negative. */
  ghost predicate DrawFits(d: Draw, cnf: Config, clock: int) {
    UsesMap(cnf) ==> clock <= d.now && PointOf(cnf, d) >= 0.0
  }

  /** While the clock stays within the retry interval of `start`, no destination
      that failed since `start` is chosen. */
  lemma ChooseAvoidsRecent(s: State, cnf: Config, d: Draw, start: int, rows: set<nat>, clock: int)
    requires Inv(s, cnf) && MapFits(s, cnf, clock) && DrawFits(d, cnf, clock) && ProbesFrom(d.probe, start)
    requires Recent(s, rows, start) && (rows == {} || d.now <= start + RetryInterval(cnf))
    ensures Choose(s, cnf, d).1.Some? ==> Choose(s, cnf, d).1.value !in rows
  {
    if UsesMap(cnf) {
      ChosenIsUsable(s, cnf, d, clock);
    } else {
      PreparedWellFormed(s, cnf, d.now);
      TopScanShape(UpdateCtx(s, cnf, d.now), 0);
      PickAvoidsRecent(Prepared(s, cnf, d.now), cnf, d, start, rows);
    }
  }

  lemma DstFailedAges(s: State, cnf: Config, i: nat, now: int, start: int)
    requires WellFormed(s) && i < |s.dst| && now >= start
    ensures Ages(s, DstFailed(s, cnf, i, now), start)
    ensures DstFailed(s, cnf, i, now).dst[i].failed == now
  {
    var s1 := s.(ctx := s.ctx.(now := now, retry := RetryInterval(cnf)));
    var s2 := s1.(dst := s1.dst[i := s1.dst[i].(failed := now)]);
    TopScanShape(s2.(ctx := s2.ctx.(minWeight := EPS)), 0);
  }

  lemma RefreshAges(s: State, cnf: Config, now: int, start: int)
    requires WellFormed(s)
    ensures Ages(s, Refresh(s, cnf, now), start)
  {
    TopScanShape(UpdateCtx(s, cnf, now), 0);
  }

  // ----------------------------------------------------------- other threads

  /** What another thread may do while this one is connecting: anything but
      adding or removing a destination, which waits, and it disconnects only what
      it connected, so this thread's own connection stays counted.  `Interference`
      derives this from the wait protocol. */
  predicate Allowed(s: State, op: Op, mine: nat) {
    match op
    case DoChange(c) => c.weight >= 0.0 && Index(s.dst, c.addr) < |s.dst|
    case DoChoose(_) => true
    case DoDisconnect(a, _, _) => OthersHave(s, a, mine)
    case DoChooseAgain(a, _, _) => OthersHave(s, a, mine)
  }

  predicate OthersHave(s: State, a: Addr, mine: nat) {
    var i := Index(s.dst, a);
    i < |s.dst| ==> s.dst[i].conns > (if i == mine then 1 else 0)
  }

  ghost predicate OpFrom(op: Op, start: int) {
    match op
    case DoChange(c) => true
    case DoChoose(d) => ProbesFrom(d.probe, start)
    case DoDisconnect(_, _, now) => now >= start
    case DoChooseAgain(_, now, d) => now >= start && ProbesFrom(d.probe, start)
  }

  ghost predicate Holds(s: State, mine: nat) {
    mine < |s.dst| && s.dst[mine].conns > 0
  }

  lemma DisconnectAges(s: State, cnf: Config, a: Addr, failed: bool, now: int, start: int, mine: nat)
    requires Inv(s, cnf) && Holds(s, mine) && OthersHave(s, a, mine) && now >= start
    ensures Ages(s, Disconnect(s, cnf, a, failed, now).0, start)
    ensures Holds(Disconnect(s, cnf, a, failed, now).0, mine)
  {
    var i := Index(s.dst, a);
    if i < |s.dst| {
      DstFailedAges(Released(s, i), cnf, i, now, start);
      DstFailedConnsAt(Released(s, i), cnf, i, now);
    }
  }

  lemma DstFailedConnsAt(s: State, cnf: Config, i: nat, now: int)
    requires WellFormed(s) && i < |s.dst|
    ensures |DstFailed(s, cnf, i, now).dst| == |s.dst|
    ensures forall j :: 0 <= j < |s.dst| ==> DstFailed(s, cnf, i, now).dst[j].conns == s.dst[j].conns
  {
    var s1 := s.(ctx := s.ctx.(now := now, retry := RetryInterval(cnf)));
    var s2 := s1.(dst := s1.dst[i := s1.dst[i].(failed := now)]);
    TopScanShape(s2.(ctx := s2.ctx.(minWeight := EPS)), 0);
  }

  /** A choice adds one connection to the chosen row and none elsewhere. */
  lemma ChooseConnsAt(s: State, cnf: Config, d: Draw)
    requires Inv(s, cnf)
    ensures var (t, r) := Choose(s, cnf, d);
            && |t.dst| == |s.dst|
            && forall j: nat :: j < |s.dst| ==> t.dst[j].conns == s.dst[j].conns + (if r == Some(j) then 1 else 0)
  {
    PreparedWellFormed(s, cnf, d.now);
    PickKeeps(Prepared(s, cnf, d.now), cnf, d);
  }

  /** Another thread's step keeps the invariant, the rows, this thread's
      connection, and lets failure stamps only age. */
  lemma OtherStep(s: State, cnf: Config, op: Op, start: int, mine: nat)
    requires Inv(s, cnf) && Holds(s, mine) && Allowed(s, op, mine) && OpFrom(op, start)
    ensures Enabled(s, op) && Inv(Apply(s, cnf, op), cnf)
    ensures Ages(s, Apply(s, cnf, op), start) && Holds(Apply(s, cnf, op), mine)
  {
    StepRefines(s, cnf, op);
    match op
    case DoChange(c) => ReweightStep(s, cnf, c, start, mine);
    case DoChoose(d) =>
      ChooseAges(s, cnf, d, start);
      ChooseConnsAt(s, cnf, d);
    case DoDisconnect(a, failed, now) =>
      DisconnectAges(s, cnf, a, failed, now, start, mine);
    case DoChooseAgain(a, now, d) => OtherRedirects(s, cnf, a, now, d, start, mine);
  }

  lemma OtherRedirects(s: State, cnf: Config, a: Addr, now: int, d: Draw, start: int, mine: nat)
    requires Inv(s, cnf) && Holds(s, mine) && OthersHave(s, a, mine)
    requires now >= start && ProbesFrom(d.probe, start)
    ensures Ages(s, ChooseAgain(s, cnf, a, now, d).0, start) && Holds(ChooseAgain(s, cnf, a, now, d).0, mine)
  {
    DisconnectAges(s, cnf, a, true, now, start, mine);
    DisconnectRefines(s, cnf, a, true, now);
    var t := Disconnect(s, cnf, a, true, now).0;
    ChooseAges(t, cnf, d, start);
    ChooseConnsAt(t, cnf, d);
  }

  lemma ReweightStep(s: State, cnf: Config, c: Change, start: int, mine: nat)
    requires Inv(s, cnf) && Holds(s, mine) && c.weight >= 0.0 && Index(s.dst, c.addr) < |s.dst|
    ensures Ages(s, ChangeDst(s, cnf, c).0, start) && Holds(ChangeDst(s, cnf, c).0, mine)
  {
    var t := Reweighted(s, Index(s.dst, c.addr), c.weight);
    RefreshAges(t, cnf, c.now, start);
    TopScanShape(UpdateCtx(t, cnf, c.now), 0);
  }

  /** One operation of another thread, if it may take it. */
  ghost function OtherOp(s: State, cnf: Config, op: Op, mine: nat): (t: State)
    requires Inv(s, cnf)
    ensures Inv(t, cnf)
  {
    if Allowed(s, op, mine) then
      StepRefines(s, cnf, op);
      Apply(s, cnf, op)
    else s
  }

  /** All of them, in order. */
  ghost function OthersRun(s: State, cnf: Config, ops: seq<Op>, mine: nat): (t: State)
    requires Inv(s, cnf)
    ensures Inv(t, cnf)
  {
    if ops == [] then s
    else OtherOp(OthersRun(s, cnf, ops[..|ops| - 1], mine), cnf, ops[|ops| - 1], mine)
  }

  /** The operations read the clock in order, between `from` and `until`. */
  ghost predicate OpsBetween(ops: seq<Op>, from: int, until: int) {
    && from <= until
    && (forall k :: 0 <= k < |ops| ==> from <= Starts(ops[k]) <= Ends(ops[k]) <= until)
    && forall j, k :: 0 <= j < k < |ops| ==> Ends(ops[j]) <= Starts(ops[k])
  }

  lemma OtherFits(s: State, cnf: Config, op: Op, mine: nat, clock: int)
    requires Inv(s, cnf) && MapFits(s, cnf, clock) && (UsesMap(cnf) ==> clock <= Starts(op) <= Ends(op))
    ensures MapFits(OtherOp(s, cnf, op, mine), cnf, Ends(op))
  {
    if UsesMap(cnf) {
      if Allowed(s, op, mine) { StepFresh(s, cnf, op, clock); } else { FreshLater(s, cnf, clock, Ends(op)); }
    }
  }

  /** The unlocked time of one attempt: any steps of other threads. */
  method RunOthers(router: Router, ops: seq<Op>, mine: nat, ghost start: int, ghost from: int, ghost until: int)
    requires Inv(router.View(), router.cnf) && Holds(router.View(), mine)
    requires forall k :: 0 <= k < |ops| ==> OpFrom(ops[k], start)
    requires MapFits(router.View(), router.cnf, from) && (UsesMap(router.cnf) ==> OpsBetween(ops, from, until))
    modifies router
    ensures Inv(router.View(), router.cnf) && Holds(router.View(), mine)
    ensures Ages(old(router.View()), router.View(), start)
    ensures router.View() == OthersRun(old(router.View()), router.cnf, ops, mine)
    ensures MapFits(router.View(), router.cnf, until)
  {
    ghost var s0, clock := router.View(), from;
    for k := 0 to |ops|
      invariant Inv(router.View(), router.cnf) && Holds(router.View(), mine)
      invariant Ages(s0, router.View(), start)
      invariant router.View() == OthersRun(s0, router.cnf, ops[..k], mine)
      invariant MapFits(router.View(), router.cnf, clock)
      invariant clock == if k == 0 then from else Ends(ops[k - 1])
    {
      assert ops[..k + 1][..k] == ops[..k];
      OtherFits(router.View(), router.cnf, ops[k], mine, clock);
      OneOther(router, ops[k], mine, start);
      clock := Ends(ops[k]);
    }
    assert ops[..|ops|] == ops;
    if UsesMap(router.cnf) { FreshLater(router.View(), router.cnf, clock, until); }
  }

  method OneOther(router: Router, op: Op, mine: nat, ghost start: int)
    requires Inv(router.View(), router.cnf) && Holds(router.View(), mine) && OpFrom(op, start)
    modifies router
    ensures Holds(router.View(), mine) && Ages(old(router.View()), router.View(), start)
    ensures router.View() == OtherOp(old(router.View()), router.cnf, op, mine)
  {
    var allowed := AllowedNow(router, op, mine);
    if allowed {
      OtherStep(router.View(), router.cnf, op, start, mine);
      match op {
        case DoChange(c) => var _ := router.ApplyChange(c);
        case DoChoose(d) => var _ := router.ChooseDst(d);
        case DoDisconnect(a, failed, now) => var _ := router.DisconnectDst(a, failed, now);
        case DoChooseAgain(a, now, d) => var _ := router.ChooseDstAgain(a, now, d);
      }
    }
  }

  method AllowedNow(router: Router, op: Op, mine: nat) returns (b: bool)
    ensures b == Allowed(router.View(), op, mine)
  {
    var s := State(router.dst, router.conns, router.next, router.top, router.ctx, router.mapFailed, router.topFailed);
    b := Allowed(s, op, mine);
  }

  // --------------------------------------------------------------- the loop

  /** One turn of the loop: the inputs of the choice, what other threads do while
      the lock is released, how `connect` ends, and the time it is found to fail. */
  datatype Attempt = Attempt(draw: Draw, others: seq<Op>, connected: bool, failedAt: int)

  /** No clock reading before `start`, and this thread's choices at most the retry
      interval after it. */
  ghost predicate InWindow(a: Attempt, cnf: Config, start: int) {
    && a.draw.now <= start + RetryInterval(cnf) && ProbesFrom(a.draw.probe, start)
    && a.failedAt >= start
    && forall k :: 0 <= k < |a.others| ==> OpFrom(a.others[k], start)
  }

  ghost predicate NoRepeats(rows: seq<nat>, n: nat) {
    && (forall k :: 0 <= k < |rows| ==> rows[k] < n)
    && forall j, k :: 0 <= j < k < |rows| ==> rows[j] != rows[k]
  }

  ghost function Members(rows: seq<nat>): set<nat> {
    set x | x in rows
  }

  lemma {:induction false} NoRepeatsBound(rows: seq<nat>, n: nat)
    requires NoRepeats(rows, n)
    ensures |rows| == |Members(rows)| && |rows| <= n
  {
    MembersSize(rows, n);
    UptoSize(n);
    assert Members(rows) <= Upto(n);
    assert Upto(n) == Members(rows) + (Upto(n) - Members(rows));
  }

  lemma {:induction false} MembersSize(rows: seq<nat>, n: nat)
    requires NoRepeats(rows, n)
    ensures |rows| == |Members(rows)|
    decreases |rows|
  {
    if rows != [] {
      var rest := rows[..|rows| - 1];
      MembersSize(rest, n);
      assert Members(rows) == Members(rest) + {rows[|rows| - 1]};
    }
  }

  ghost function Upto(n: nat): (r: set<nat>)
    ensures forall x: nat :: x in r <==> x < n
  {
    if n == 0 then {} else Upto(n - 1) + {n - 1}
  }

  lemma {:induction false} UptoSize(n: nat)
    ensures |Upto(n)| == n
  {
    if n > 0 {
      UptoSize(n - 1);
    }
  }

  // ------------------------------------------------ what the loop went through

  /** The router when the lock is released for an attempt and when it is taken
      again. */
  datatype Turn = Turn(before: State, after: State)

  /** From state `s` the turn chooses `row`, and between its two states other threads
      do what the plan says. */
  ghost predicate TurnIs(s: State, cnf: Config, a: Attempt, row: nat, turn: Turn) {
    && WellFormed(s) && Choose(s, cnf, a.draw) == (turn.before, Some(row)) && Inv(turn.before, cnf)
    && turn.after == OthersRun(turn.before, cnf, a.others, row)
  }

  /** The failed attempt undone: count given back, destination marked. */
  ghost function Undone(s: State, cnf: Config, row: nat, now: int): State {
    if WellFormed(s) && Holds(s, row) then DstFailed(Released(s, row), cnf, row, now) else s
  }

  /** Where turn `k` starts. */
  ghost function Reached(s0: State, cnf: Config, plan: nat -> Attempt, tried: seq<nat>, trace: seq<Turn>, k: nat): State
    requires k <= |tried| == |trace|
  {
    if k == 0 then s0 else Undone(trace[k - 1].after, cnf, tried[k - 1], plan(k - 1).failedAt)
  }

  ghost predicate Link(s0: State, cnf: Config, plan: nat -> Attempt, tried: seq<nat>, trace: seq<Turn>, k: nat)
    requires k < |tried| == |trace|
  {
    TurnIs(Reached(s0, cnf, plan, tried, trace, k), cnf, plan(k), tried[k], trace[k])
  }

  ghost predicate Chained(s0: State, cnf: Config, plan: nat -> Attempt, tried: seq<nat>, trace: seq<Turn>) {
    && |trace| == |tried|
    && forall k: nat :: k < |tried| ==> Link(s0, cnf, plan, tried, trace, k)
  }

  /** A link depends on the turns up to its own. */
  lemma LinkLocal(s0: State, cnf: Config, plan: nat -> Attempt, tried: seq<nat>, trace: seq<Turn>,
                  tried': seq<nat>, trace': seq<Turn>, k: nat)
    requires k < |tried| == |trace| && k < |tried'| == |trace'|
    requires tried'[..k + 1] == tried[..k + 1] && trace'[..k + 1] == trace[..k + 1]
    ensures Link(s0, cnf, plan, tried, trace, k) <==> Link(s0, cnf, plan, tried', trace', k)
  {
    SamePrefix(tried, tried', k);
    SamePrefix(trace, trace', k);
  }

  lemma SamePrefix<T>(a: seq<T>, b: seq<T>, k: nat)
    requires k < |a| && k < |b| && a[..k + 1] == b[..k + 1]
    ensures a[k] == b[k] && (k > 0 ==> a[k - 1] == b[k - 1])
  {
    assert a[k] == a[..k + 1][k] && b[k] == b[..k + 1][k];
    if k > 0 {
      assert a[k - 1] == a[..k + 1][k - 1] && b[k - 1] == b[..k + 1][k - 1];
    }
  }

  lemma ChainGrows(s0: State, cnf: Config, plan: nat -> Attempt, tried: seq<nat>, trace: seq<Turn>,
                   tried': seq<nat>, trace': seq<Turn>)
    requires Chained(s0, cnf, plan, tried, trace) && |tried'| == |trace'| == |tried| + 1
    requires tried'[..|tried|] == tried && trace'[..|tried|] == trace && Link(s0, cnf, plan, tried', trace', |tried|)
    ensures Chained(s0, cnf, plan, tried', trace')
  {
    forall k: nat | k < |tried|
      ensures Link(s0, cnf, plan, tried', trace', k)
    {
      assert tried'[..k + 1] == tried'[..|tried|][..k + 1] && trace'[..k + 1] == trace'[..|tried|][..k + 1];
      LinkLocal(s0, cnf, plan, tried, trace, tried', trace', k);
    }
  }

  /** By how much the count of row `i` changed while the lock was released. */
  ghost function TurnMoved(turn: Turn, i: nat): int {
    if i < |turn.before.dst| && i < |turn.after.dst| then turn.after.dst[i].conns - turn.before.dst[i].conns else 0
  }

  ghost function Moved(trace: seq<Turn>, i: nat): int {
    if trace == [] then 0 else Moved(trace[..|trace| - 1], i) + TurnMoved(trace[|trace| - 1], i)
  }

  /** With no other threads about, nothing moves. */
  lemma {:induction false} QuietMoved(s0: State, cnf: Config, plan: nat -> Attempt, tried: seq<nat>, trace: seq<Turn>,
                                      n: nat, i: nat)
    requires Chained(s0, cnf, plan, tried, trace) && n <= |trace| && forall k :: plan(k).others == []
    ensures Moved(trace[..n], i) == 0
    decreases n
  {
    if n > 0 {
      QuietMoved(s0, cnf, plan, tried, trace, n - 1, i);
      assert Link(s0, cnf, plan, tried, trace, n - 1) && plan(n - 1).others == [];
      assert trace[..n][..n - 1] == trace[..n - 1];
    }
  }

  /** Counts changed by what other threads did in the turns of `trace`, plus one for
      row `mine` if any. */
  ghost predicate CountsMoved(s0: State, s: State, trace: seq<Turn>, mine: Option<nat>) {
    && |s.dst| == |s0.dst|
    && forall i: nat :: i < |s.dst| ==>
         s.dst[i].conns == s0.dst[i].conns + Moved(trace, i) + (if mine == Some(i) then 1 else 0)
  }

  // ------------------------------------------------------------ the loop itself

  /** The latest reading of the clock before turn `k`. */
  ghost function ClockAt(plan: nat -> Attempt, start: int, k: nat): int {
    if k == 0 then start else plan(k - 1).failedAt
  }

  /** An attempt under a map policy: the clock does not go back, and the point is not
      negative. */
  ghost predicate AttemptFits(a: Attempt, cnf: Config, clock: int) {
    UsesMap(cnf) ==> DrawFits(a.draw, cnf, clock) && OpsBetween(a.others, a.draw.now, a.failedAt)
  }

  /** How the loop ends, as to rows and counts: it tried different rows; all failed, but
      for the last when `connected`; the counts moved by what other threads did and one
      for a connection made. */
  ghost predicate Outcome(s0: State, s: State, cnf: Config, tried: seq<nat>, trace: seq<Turn>, start: int,
                          connected: bool) {
    && Inv(s, cnf) && Ages(s0, s, start) && NoRepeats(tried, |s.dst|) && (connected ==> tried != [])
    && (forall k :: 0 <= k < |tried| && (!connected || k < |tried| - 1) ==> s.dst[tried[k]].failed >= start)
    && CountsMoved(s0, s, trace, if connected then Some(tried[|tried| - 1]) else None)
  }

  /** How it got there: by the turns of `trace`, the last of which connected or was
      followed by a choice that found nothing. */
  ghost predicate Followed(s0: State, s: State, cnf: Config, plan: nat -> Attempt, tried: seq<nat>, trace: seq<Turn>,
                           connected: bool) {
    && Chained(s0, cnf, plan, tried, trace)
    && if connected then trace != [] && s == trace[|trace| - 1].after
       else
         var last := Reached(s0, cnf, plan, tried, trace, |tried|);
         WellFormed(last) && Choose(last, cnf, plan(|tried|).draw) == (s, None)
  }

  /** `router_connect_dst`.  `tried` lists the rows attempted and `trace` the states
      around each attempt, which follow from one another: what the choice does, what
      other threads do, and the undoing of a failed attempt. */
  method ConnectDst(router: Router, plan: nat -> Attempt, ghost start: int)
      returns (result: Option<Addr>, tried: seq<nat>, ghost trace: seq<Turn>)
    requires Inv(router.View(), router.cnf) && MapFits(router.View(), router.cnf, start)
    requires forall k :: InWindow(plan(k), router.cnf, start)
    requires forall k :: AttemptFits(plan(k), router.cnf, ClockAt(plan, start, k))
    modifies router
    ensures Outcome(old(router.View()), router.View(), router.cnf, tried, trace, start, result.Some?)
    ensures Followed(old(router.View()), router.View(), router.cnf, plan, tried, trace, result.Some?)
    ensures |tried| <= |router.dst|
    ensures result.Some? ==> result.value == router.dst[tried[|tried| - 1]].addr
    ensures (forall k :: plan(k).others == []) ==> forall i :: Moved(trace, i) == 0
  {
    var connected;
    ghost var s0 := router.View();
    connected, tried, trace := TryAll(router, plan, start);
    result := if connected then Some(router.dst[tried[|tried| - 1]].addr) else None;
    NoRepeatsBound(tried, |router.dst|);
    if forall k :: plan(k).others == [] {
      forall i ensures Moved(trace, i) == 0 { NothingMoved(s0, router.cnf, plan, tried, trace, i); }
    }
  }

  method TryAll(router: Router, plan: nat -> Attempt, ghost start: int)
      returns (connected: bool, tried: seq<nat>, ghost trace: seq<Turn>)
    requires Inv(router.View(), router.cnf) && MapFits(router.View(), router.cnf, start)
    requires forall k :: InWindow(plan(k), router.cnf, start)
    requires forall k :: AttemptFits(plan(k), router.cnf, ClockAt(plan, start, k))
    modifies router
    ensures Outcome(old(router.View()), router.View(), router.cnf, tried, trace, start, connected)
    ensures Followed(old(router.View()), router.View(), router.cnf, plan, tried, trace, connected)
  {
    connected, tried, trace := false, [], [];
    ghost var s0, cnf := router.View(), router.cnf;
    while !connected
      invariant !connected ==> RowsInv(s0, router.View(), cnf, tried, trace, start)
      invariant !connected ==> TraceInv(s0, router.View(), cnf, plan, tried, trace, start)
      invariant connected ==> Outcome(s0, router.View(), cnf, tried, trace, start, true)
      invariant connected ==> Followed(s0, router.View(), cnf, plan, tried, trace, true)
      decreases !connected, |s0.dst| - |tried|
    {
      ghost var s := router.View();
      var r;
      ghost var turn;
      r, connected, turn := TryOne(router, plan(|tried|), start, Members(tried), ClockAt(plan, start, |tried|));
      if r.None? {
        RowsEnd(s0, s, router.View(), cnf, tried, trace, start);
        return;
      }
      RowsStep(s0, s, router.View(), cnf, tried, trace, start, r.value, connected, turn);
      TraceStep(s0, s, router.View(), cnf, plan, tried, trace, start, r.value, connected, turn);
      tried, trace := tried + [r.value], trace + [turn];
    }
  }

  lemma NothingMoved(s0: State, cnf: Config, plan: nat -> Attempt, tried: seq<nat>, trace: seq<Turn>, i: nat)
    requires Chained(s0, cnf, plan, tried, trace) && forall k :: plan(k).others == []
    ensures Moved(trace, i) == 0
  {
    QuietMoved(s0, cnf, plan, tried, trace, |trace|, i);
    assert trace[..|trace|] == trace;
  }

  /** Between turns: rows tried are distinct and recently failed, and only other threads
      have changed the counts. */
  ghost predicate RowsInv(s0: State, s: State, cnf: Config, tried: seq<nat>, trace: seq<Turn>, start: int) {
    && Inv(s, cnf) && Ages(s0, s, start)
    && NoRepeats(tried, |s.dst|) && Recent(s, Members(tried), start)
    && CountsMoved(s0, s, trace, None)
  }

  /** Between turns: the state follows from the turns taken. */
  ghost predicate TraceInv(s0: State, s: State, cnf: Config, plan: nat -> Attempt, tried: seq<nat>, trace: seq<Turn>,
                           start: int) {
    && Chained(s0, cnf, plan, tried, trace) && s == Reached(s0, cnf, plan, tried, trace, |tried|)
    && MapFits(s, cnf, ClockAt(plan, start, |tried|))
  }

  /** A turn that chooses `row`. */
  ghost predicate TurnTaken(s: State, t: State, cnf: Config, rows: set<nat>, start: int,
                            row: nat, connected: bool, turn: Turn) {
    && Inv(t, cnf) && Ages(s, t, start)
    && row < |t.dst| && row !in rows && (connected || t.dst[row].failed >= start)
    && forall i: nat :: i < |t.dst| ==>
         t.dst[i].conns == s.dst[i].conns + TurnMoved(turn, i) + (if connected && row == i then 1 else 0)
  }

  /** A turn with nothing left to choose. */
  ghost predicate TurnEnds(s: State, t: State, cnf: Config, a: Attempt, start: int) {
    && Inv(t, cnf) && Ages(s, t, start) && WellFormed(s) && Choose(s, cnf, a.draw) == (t, None)
    && forall i: nat :: i < |t.dst| ==> t.dst[i].conns == s.dst[i].conns
  }

  lemma RowsEnd(s0: State, s: State, t: State, cnf: Config, tried: seq<nat>, trace: seq<Turn>, start: int)
    requires RowsInv(s0, s, cnf, tried, trace, start) && Inv(t, cnf) && Ages(s, t, start)
    requires forall i: nat :: i < |t.dst| ==> t.dst[i].conns == s.dst[i].conns
    ensures Outcome(s0, t, cnf, tried, trace, start, false)
  {
    AgesKeepsRecent(s, t, Members(tried), start);
    RecentTried(t, tried, start);
  }

  lemma RecentTried(t: State, tried: seq<nat>, start: int)
    requires Recent(t, Members(tried), start)
    ensures forall k :: 0 <= k < |tried| ==> tried[k] < |t.dst| && t.dst[tried[k]].failed >= start
  {
    assert forall k :: 0 <= k < |tried| ==> tried[k] in Members(tried);
  }

  lemma RowsStep(s0: State, s: State, t: State, cnf: Config, tried: seq<nat>, trace: seq<Turn>, start: int,
                 row: nat, connected: bool, turn: Turn)
    requires RowsInv(s0, s, cnf, tried, trace, start)
    requires TurnTaken(s, t, cnf, Members(tried), start, row, connected, turn)
    ensures |tried| < |s0.dst|
    ensures connected ==> Outcome(s0, t, cnf, tried + [row], trace + [turn], start, true)
    ensures !connected ==> RowsInv(s0, t, cnf, tried + [row], trace + [turn], start)
  {
    AgesKeepsRecent(s, t, Members(tried), start);
    TriedGrows(t, tried, row, start);
    CountsGrow(s0, s, t, trace, row, connected, turn);
    AgesFurther(s0, s, t, start);
  }

  lemma TriedGrows(t: State, tried: seq<nat>, row: nat, start: int)
    requires NoRepeats(tried, |t.dst|) && Recent(t, Members(tried), start) && row < |t.dst| && row !in Members(tried)
    ensures |tried| < |t.dst| && NoRepeats(tried + [row], |t.dst|)
    ensures forall k :: 0 <= k < |tried| ==> t.dst[(tried + [row])[k]].failed >= start
    ensures t.dst[row].failed >= start ==> Recent(t, Members(tried + [row]), start)
  {
    RecentTried(t, tried, start);
    assert Members(tried + [row]) == Members(tried) + {row};
    NoRepeatsBound(tried + [row], |t.dst|);
  }

  lemma AgesFurther(s0: State, s: State, t: State, start: int)
    requires Ages(s0, s, start) && Ages(s, t, start)
    ensures Ages(s0, t, start)
  {
  }

  lemma TraceStep(s0: State, s: State, t: State, cnf: Config, plan: nat -> Attempt, tried: seq<nat>, trace: seq<Turn>,
                  start: int, row: nat, connected: bool, turn: Turn)
    requires TraceInv(s0, s, cnf, plan, tried, trace, start) && TurnIs(s, cnf, plan(|tried|), row, turn)
    requires t == if connected then turn.after else Undone(turn.after, cnf, row, plan(|tried|).failedAt)
    requires MapFits(t, cnf, plan(|tried|).failedAt)
    ensures connected ==> Followed(s0, t, cnf, plan, tried + [row], trace + [turn], true)
    ensures !connected ==> TraceInv(s0, t, cnf, plan, tried + [row], trace + [turn], start)
  {
    var tried', trace' := tried + [row], trace + [turn];
    assert Reached(s0, cnf, plan, tried', trace', |tried|) == s;
    assert Link(s0, cnf, plan, tried', trace', |tried|);
    ChainGrows(s0, cnf, plan, tried, trace, tried', trace');
  }

  lemma CountsGrow(s0: State, s: State, t: State, trace: seq<Turn>, row: nat, connected: bool, turn: Turn)
    requires CountsMoved(s0, s, trace, None) && |t.dst| == |s.dst|
    requires forall i: nat :: i < |t.dst| ==>
               t.dst[i].conns == s.dst[i].conns + TurnMoved(turn, i) + (if connected && row == i then 1 else 0)
    ensures CountsMoved(s0, t, trace + [turn], if connected then Some(row) else None)
  {
    assert (trace + [turn])[..|trace|] == trace;
  }

  /** One turn: choose outside `rows`, connect with the lock released, and on
      failure undo and mark. */
  method TryOne(router: Router, a: Attempt, ghost start: int, ghost rows: set<nat>, ghost clock: int)
      returns (r: Option<nat>, connected: bool, ghost turn: Turn)
    requires Inv(router.View(), router.cnf) && MapFits(router.View(), router.cnf, clock)
    requires InWindow(a, router.cnf, start) && AttemptFits(a, router.cnf, clock)
    requires Recent(router.View(), rows, start)
    modifies router
    ensures r.None? ==> !connected && TurnEnds(old(router.View()), router.View(), router.cnf, a, start)
    ensures r.Some? ==> TurnTaken(old(router.View()), router.View(), router.cnf, rows, start, r.value, connected, turn)
    ensures r.Some? ==> TurnIs(old(router.View()), router.cnf, a, r.value, turn)
    ensures r.Some? ==>
      router.View() == if connected then turn.after else Undone(turn.after, router.cnf, r.value, a.failedAt)
    ensures r.Some? ==> MapFits(router.View(), router.cnf, a.failedAt)
  {
    connected := false;
    ghost var s := router.View();
    r := ChooseOutside(router, a.draw, start, rows, clock);
    turn := Turn(router.View(), router.View());
    if r.Some? {
      RunOthers(router, a.others, r.value, start, a.draw.now, a.failedAt);
      turn := turn.(after := router.View());
      connected := a.connected;
      if !connected {
        FailAttempt(router, r.value, a.failedAt, start);
      }
      TurnSums(s, router.View(), router.cnf, rows, start, r.value, connected, turn);
    }
  }

  /** A turn chooses, lets others move, and gives back what it took if it failed. */
  lemma TurnSums(s: State, t: State, cnf: Config, rows: set<nat>, start: int, row: nat, connected: bool, turn: Turn)
    requires Inv(t, cnf) && row < |s.dst| && row !in rows
    requires Ages(s, turn.before, start) && Ages(turn.before, turn.after, start) && Ages(turn.after, t, start)
    requires connected || t.dst[row].failed >= start
    requires forall i: nat :: i < |s.dst| ==>
               && turn.before.dst[i].conns == s.dst[i].conns + (if row == i then 1 else 0)
               && t.dst[i].conns == turn.after.dst[i].conns - (if !connected && row == i then 1 else 0)
    ensures TurnTaken(s, t, cnf, rows, start, row, connected, turn)
  {
    AgesFurther(s, turn.before, turn.after, start);
    AgesFurther(s, turn.after, t, start);
  }

  method ChooseOutside(router: Router, draw: Draw, ghost start: int, ghost rows: set<nat>, ghost clock: int)
      returns (r: Option<nat>)
    requires Inv(router.View(), router.cnf)
    requires MapFits(router.View(), router.cnf, clock) && DrawFits(draw, router.cnf, clock)
    requires draw.now <= start + RetryInterval(router.cnf) && ProbesFrom(draw.probe, start)
    requires Recent(router.View(), rows, start)
    modifies router
    ensures Inv(router.View(), router.cnf) && Ages(old(router.View()), router.View(), start)
    ensures Choose(old(router.View()), router.cnf, draw) == (router.View(), r)
    ensures r.Some? ==> r.value < |router.dst| && r.value !in rows
    ensures forall j: nat :: j < |router.dst| ==>
      router.dst[j].conns == old(router.dst)[j].conns + (if r == Some(j) then 1 else 0)
    ensures MapFits(router.View(), router.cnf, draw.now)
  {
    ghost var s := router.View();
    ChooseAvoidsRecent(s, router.cnf, draw, start, rows, clock);
    ChooseAges(s, router.cnf, draw, start);
    ChooseRefines(s, router.cnf, draw);
    ChooseConnsAt(s, router.cnf, draw);
    if UsesMap(router.cnf) { ChooseFresh(s, router.cnf, draw, clock); }
    r := router.ChooseDst(draw);
  }

  /** Undo the count of row `i` and mark it failed. */
  method FailAttempt(router: Router, i: nat, now: int, ghost start: int)
    requires Inv(router.View(), router.cnf) && Holds(router.View(), i) && now >= start
    requires MapFits(router.View(), router.cnf, now)
    modifies router
    ensures Inv(router.View(), router.cnf) && Ages(old(router.View()), router.View(), start)
    ensures router.View() == Undone(old(router.View()), router.cnf, i, now)
    ensures |router.dst| == |old(router.dst)| && router.dst[i].failed >= start
    ensures forall j :: 0 <= j < |router.dst| ==>
      router.dst[j].conns == old(router.dst[j].conns) - (if i == j then 1 else 0)
    ensures MapFits(router.View(), router.cnf, now)
  {
    UndoneFits(router.View(), router.cnf, i, now);
    ReleasedRefines(router.View(), i);
    router.Release(i);
    DstFailedKeeps(router.View(), router.cnf, i, now);
    DstFailedAges(router.View(), router.cnf, i, now, start);
    DstFailedConnsAt(router.View(), router.cnf, i, now);
    router.MarkFailed(i, now);
  }

  lemma UndoneFits(s: State, cnf: Config, i: nat, now: int)
    requires Inv(s, cnf) && Holds(s, i) && MapFits(s, cnf, now)
    ensures MapFits(Undone(s, cnf, i, now), cnf, now)
  {
    if UsesMap(cnf) {
      FreshRows(s, Released(s, i), cnf, now);
      FailedFresh(Released(s, i), cnf, i, now, now);
    }
  }
}
