/** Extra probing on connection attempts: under every policy that probes, the chosen
    destination has passed its check, every one passed over failed it, and the answers
    last: a READY one for the probing interval, a failure for the retry time. */
module Probing {
  import opened RouterState
  import opened RouterInvariant
  import opened LeastConnected
  import opened Frames
  import Failover

  /** Whether a check passes does not depend on checks that failed before it. */
  ghost predicate SameVerdicts(s: State, t: State) {
    && |t.dst| == |s.dst|
    && forall i :: 0 <= i < |s.dst| ==> t.dst[i].probed == s.dst[i].probed && t.dst[i].checked == s.dst[i].checked
  }

  ghost predicate Passed(s: State, r: Option<nat>, extra: nat, probe: nat -> Probe) {
    r.Some? ==> r.value < |s.dst| && CheckPasses(s.dst[r.value], extra, probe(r.value))
  }

  lemma FailedCheckKeepsVerdicts(s: State, i: nat, extra: nat, p: Probe)
    requires i < |s.dst| && !CheckPasses(s.dst[i], extra, p)
    ensures SameVerdicts(s, CheckAt(s, i, extra, p))
  {
  }

  lemma PassedBefore(s: State, t: State, r: Option<nat>, extra: nat, probe: nat -> Probe)
    requires SameVerdicts(s, t) && Passed(t, r, extra, probe)
    ensures Passed(s, r, extra, probe)
  {
  }

  lemma {:induction false} RoundPassed(s: State, left: nat, extra: nat, probe: nat -> Probe)
    requires WellFormed(s) && left <= |s.dst|
    ensures Passed(s, RoundScan(s, left, extra, probe).1, extra, probe)
    decreases left
  {
    if left > 0 {
      var i := s.next;
      var s1 := Advanced(s);
      if !Eligible(s1, i) {
        RoundPassed(s1, left - 1, extra, probe);
      } else if !CheckPasses(s1.dst[i], extra, probe(i)) {
        var s2 := CheckAt(s1, i, extra, probe(i));
        FailedCheckKeepsVerdicts(s1, i, extra, probe(i));
        RoundPassed(s2, left - 1, extra, probe);
        PassedBefore(s1, s2, RoundScan(s2, left - 1, extra, probe).1, extra, probe);
      }
    }
  }

  lemma {:induction false} HintPassed(s: State, i: nat, x: real, extra: nat, probe: nat -> Probe)
    requires i <= |s.dst|
    ensures Passed(s, HintScan(s, i, x, extra, probe).1, extra, probe)
    decreases |s.dst| - i
  {
    if i < |s.dst| {
      if !(x < s.dst[i].share) {
        HintPassed(s, i + 1, x, extra, probe);
      } else if !CheckPasses(s.dst[i], extra, probe(i)) {
        var s1 := CheckAt(s, i, extra, probe(i));
        FailedCheckKeepsVerdicts(s, i, extra, probe(i));
        HintPassed(s1, i + 1, x, extra, probe);
        PassedBefore(s, s1, HintScan(s1, i + 1, x, extra, probe).1, extra, probe);
      }
    }
  }

  /** Under every policy but the single one, a chosen destination passed its check. */
  lemma ChosenPassedCheck(s: State, cnf: Config, d: Draw)
    requires WellFormed(s) && !cnf.policy.Single?
    ensures Passed(s, Choose(s, cnf, d).1, cnf.extra, d.probe)
  {
    PreparedWellFormed(s, cnf, d.now);
    var p := Prepared(s, cnf, d.now);
    match cnf.policy
    case Least =>
    case Round => RoundPassed(p, |p.dst|, cnf.extra, d.probe);
    case Random => HintPassed(MapFreshened(p, cnf), 0, Point(d.random), cnf.extra, d.probe);
    case Source => HintPassed(MapFreshened(p, cnf), 0, Point(d.hint), cnf.extra, d.probe);
  }

  // ------------------------------------------------- what a choice writes

  /** A check of this row would ask the destination: probing is on, the row has a probe
      and its last READY answer is too old. */
  ghost predicate Due(e: Entry, extra: nat, p: Probe) {
    extra > 0 && e.probed && p.started >= e.checked + extra
  }

  /** The row passed: a READY answer is remembered by its own time stamp. */
  ghost predicate Accepted(e: Entry, f: Entry, extra: nat, p: Probe) {
    if Due(e, extra, p) then p.ready && f == e.(checked := p.stamp) else f == e
  }

  /** The row did not pass: it failed at the time read then. */
  ghost predicate Rejected(e: Entry, f: Entry, extra: nat, p: Probe) {
    Due(e, extra, p) && !p.ready && f == e.(failed := p.failedAt)
  }

  /** How many rows round robin passes from the cursor at `c` before it meets `i`. */
  function Ahead(c: nat, i: nat, n: nat): nat
    requires c < n && i < n
  {
    if c <= i then i - c else i + n - c
  }

  /** Row by row, what a scan that ended at `r` did: the rows it wanted and met before
      `r` were rejected, `r` was wanted and accepted, the others are as they were. */
  ghost predicate RowScanned(e: Entry, f: Entry, wanted: bool, before: bool, chosen: bool, extra: nat, p: Probe) {
    if chosen then wanted && Accepted(e, f, extra, p)
    else if wanted && before then Rejected(e, f, extra, p)
    else f == e
  }

  ghost predicate RoundScanned(s: State, left: nat, t: State, r: Option<nat>, extra: nat, probe: nat -> Probe)
    requires WellFormed(s)
  {
    var n := |s.dst|;
    && |t.dst| == n && (r.Some? ==> r.value < n && Ahead(s.next, r.value, n) < left)
    && forall i: nat :: i < n ==>
         RowScanned(s.dst[i], t.dst[i], Eligible(s, i),
                    Ahead(s.next, i, n) < (if r.Some? then Ahead(s.next, r.value, n) else left),
                    r == Some(i), extra, probe(i))
  }

  lemma NextIs(c: nat, n: nat)
    requires c < n
    ensures (c + 1) % n == if c + 1 == n then 0 else c + 1
  {
  }

  lemma AheadOfNext(c: nat, i: nat, n: nat)
    requires c < n && i < n && i != c
    ensures Ahead((c + 1) % n, i, n) == Ahead(c, i, n) - 1
  {
    NextIs(c, n);
  }

  ghost predicate MetRow(s: State, u: State, extra: nat, probe: nat -> Probe)
    requires WellFormed(s) && |s.dst| > 0
  {
    var c := s.next;
    && |u.dst| == |s.dst| && u.next == (c + 1) % |s.dst| && u.ctx == s.ctx && u.top == s.top
    && (forall i :: 0 <= i < |s.dst| && i != c ==> u.dst[i] == s.dst[i])
    && if Eligible(s, c) then Rejected(s.dst[c], u.dst[c], extra, probe(c)) else u.dst[c] == s.dst[c]
  }

  lemma RoundStep(s: State, u: State, left: nat, t: State, r: Option<nat>, extra: nat, probe: nat -> Probe)
    requires WellFormed(s) && 0 < left <= |s.dst| && MetRow(s, u, extra, probe)
    requires RoundScanned(u, left - 1, t, r, extra, probe)
    ensures RoundScanned(s, left, t, r, extra, probe)
  {
    var n, c := |s.dst|, s.next;
    NextIs(c, n);
    assert Ahead(u.next, c, n) == n - 1;
    if r.Some? {
      AheadOfNext(c, r.value, n);
    }
    forall i: nat | i < n
      ensures RowScanned(s.dst[i], t.dst[i], Eligible(s, i),
                         Ahead(c, i, n) < (if r.Some? then Ahead(c, r.value, n) else left),
                         r == Some(i), extra, probe(i))
    {
      assert i != c ==> Eligible(u, i) == Eligible(s, i);
      if i != c { AheadOfNext(c, i, n); }
    }
  }

  lemma MetIneligible(s: State, extra: nat, probe: nat -> Probe)
    requires WellFormed(s) && |s.dst| > 0 && !Eligible(s, s.next)
    ensures MetRow(s, Advanced(s), extra, probe)
  {
  }

  lemma MetFailing(s: State, extra: nat, probe: nat -> Probe)
    requires WellFormed(s) && |s.dst| > 0 && Eligible(s, s.next)
    requires !CheckPasses(s.dst[s.next], extra, probe(s.next))
    ensures MetRow(s, CheckAt(Advanced(s), s.next, extra, probe(s.next)), extra, probe)
  {
  }

  lemma RoundTakes(s: State, t: State, left: nat, extra: nat, probe: nat -> Probe)
    requires WellFormed(s) && 0 < left <= |s.dst| && Eligible(s, s.next)
    requires |t.dst| == |s.dst| && Accepted(s.dst[s.next], t.dst[s.next], extra, probe(s.next))
    requires forall i :: 0 <= i < |s.dst| && i != s.next ==> t.dst[i] == s.dst[i]
    ensures RoundScanned(s, left, t, Some(s.next), extra, probe)
  {
  }

  lemma {:induction false} RoundScans(s: State, left: nat, extra: nat, probe: nat -> Probe)
    requires WellFormed(s) && left <= |s.dst|
    ensures var (t, r) := RoundScan(s, left, extra, probe); RoundScanned(s, left, t, r, extra, probe)
    decreases left
  {
    if left > 0 {
      var i := s.next;
      var s1 := Advanced(s);
      var s2 := CheckAt(s1, i, extra, probe(i));
      var (t, r) := RoundScan(s, left, extra, probe);
      if !Eligible(s1, i) {
        RoundScans(s1, left - 1, extra, probe);
        MetIneligible(s, extra, probe);
        RoundStep(s, s1, left, t, r, extra, probe);
      } else if !CheckPasses(s1.dst[i], extra, probe(i)) {
        RoundScans(s2, left - 1, extra, probe);
        MetFailing(s, extra, probe);
        RoundStep(s, s2, left, t, r, extra, probe);
      } else {
        RoundTakes(s, s2, left, extra, probe);
      }
    }
  }

  ghost predicate HintScanned(s: State, from: nat, x: real, t: State, r: Option<nat>, extra: nat,
                              probe: nat -> Probe) {
    && |t.dst| == |s.dst| && (r.Some? ==> from <= r.value < |s.dst|)
    && forall i: nat :: i < |s.dst| ==>
         RowScanned(s.dst[i], t.dst[i], from <= i && x < s.dst[i].share, r.Some? ==> i < r.value,
                    r == Some(i), extra, probe(i))
  }

  lemma {:induction false} HintScans(s: State, from: nat, x: real, extra: nat, probe: nat -> Probe)
    requires from <= |s.dst|
    ensures var (t, r) := HintScan(s, from, x, extra, probe); HintScanned(s, from, x, t, r, extra, probe)
    decreases |s.dst| - from
  {
    if from < |s.dst| {
      var s1 := CheckAt(s, from, extra, probe(from));
      if !(x < s.dst[from].share) {
        HintScans(s, from + 1, x, extra, probe);
      } else if !CheckPasses(s.dst[from], extra, probe(from)) {
        HintScans(s1, from + 1, x, extra, probe);
      }
    }
  }

  /** The rows a choice would take if they passed their check. */
  ghost predicate Wanted(p: State, cnf: Config, d: Draw, i: nat)
    requires WellFormed(p) && i < |p.dst|
  {
    match cnf.policy
    case Least => BestOf(p, |p.dst|, Some(i))
    case Round => Eligible(p, i)
    case Single => TopIsGood(p) && p.top == Some(i)
    case Random => Point(d.random) < MapFreshened(p, cnf).dst[i].share
    case Source => Point(d.hint) < MapFreshened(p, cnf).dst[i].share
  }

  /** The rows it comes to before the one it takes; all of them if it takes none. */
  ghost predicate Before(p: State, cnf: Config, r: Option<nat>, i: nat)
    requires WellFormed(p) && i < |p.dst| && (r.Some? ==> r.value < |p.dst|)
  {
    r.Some? ==>
      match cnf.policy
      case Round => Ahead(p.next, i, |p.dst|) < Ahead(p.next, r.value, |p.dst|)
      case Least => false
      case Single => false
      case Random => i < r.value
      case Source => i < r.value
  }

  /** The single policy never probes. */
  function ProbeInterval(cnf: Config): nat {
    if cnf.policy.Single? then 0 else cnf.extra
  }

  ghost predicate Scanned(p: State, cnf: Config, d: Draw, t: State, r: Option<nat>)
    requires WellFormed(p)
  {
    && |t.dst| == |p.dst| && (r.Some? ==> r.value < |p.dst|)
    && forall i: nat :: i < |p.dst| ==>
         RowScanned(p.dst[i].(share := t.dst[i].share), t.dst[i], Wanted(p, cnf, d, i), Before(p, cnf, r, i),
                    r == Some(i), ProbeInterval(cnf), d.probe(i))
  }

  lemma LeastScanned(p: State, cnf: Config, d: Draw)
    requires WellFormed(p) && cnf.policy.Least?
    ensures var (t, r) := Pick(p, cnf, d); Scanned(p, cnf, d, t, r)
  {
    LeastScanIsBest(p, 0, None);
    forall i: nat, j: nat | BestOf(p, |p.dst|, Some(i)) && BestOf(p, |p.dst|, Some(j))
      ensures i == j
    {
      assert Eligible(p, i) && Eligible(p, j);
    }
  }

  lemma MapScanned(p: State, cnf: Config, d: Draw, hint: Hint)
    requires WellFormed(p) && UsesMap(cnf) && hint == if cnf.policy.Random? then d.random else d.hint
    ensures var (t, r) := Pick(p, cnf, d); Scanned(p, cnf, d, t, r)
  {
    var m := MapFreshened(p, cnf);
    HintScans(m, 0, Point(hint), cnf.extra, d.probe);
  }

  lemma PickScanned(p: State, cnf: Config, d: Draw)
    requires WellFormed(p)
    ensures var (t, r) := Pick(p, cnf, d); Scanned(p, cnf, d, t, r)
  {
    match cnf.policy
    case Least => LeastScanned(p, cnf, d);
    case Round => RoundScans(p, |p.dst|, cnf.extra, d.probe);
    case Single =>
    case Random => MapScanned(p, cnf, d, d.random);
    case Source => MapScanned(p, cnf, d, d.hint);
  }

  /** What one choice does to each row's record of checks and failures: the row taken
      has the time of its READY answer if it was asked, every wanted row before it was
      asked and has the time of its failure, and no other row's record changes. */
  ghost predicate Recorded(p: State, cnf: Config, d: Draw, t: State, r: Option<nat>)
    requires WellFormed(p)
  {
    && |t.dst| == |p.dst| && (r.Some? ==> r.value < |p.dst|)
    && forall i: nat :: i < |p.dst| ==>
         var e, f, asked := p.dst[i], t.dst[i], Due(p.dst[i], ProbeInterval(cnf), d.probe(i));
         if r == Some(i) then
           && Wanted(p, cnf, d, i) && (asked ==> d.probe(i).ready)
           && f == e.(share := f.share, checked := if asked then d.probe(i).stamp else e.checked,
                      conns := e.conns + 1, usage := f.usage)
         else if Wanted(p, cnf, d, i) && Before(p, cnf, r, i) then
           asked && !d.probe(i).ready && f == e.(share := f.share, failed := d.probe(i).failedAt)
         else f == e.(share := f.share)
  }

  lemma ChooseRecords(s: State, cnf: Config, d: Draw)
    requires Inv(s, cnf)
    ensures WellFormed(Prepared(s, cnf, d.now)) && Prepared(s, cnf, d.now).dst == s.dst
    ensures var (t, r) := Choose(s, cnf, d); Recorded(Prepared(s, cnf, d.now), cnf, d, t, r)
  {
    PreparedWellFormed(s, cnf, d.now);
    PickScanned(Prepared(s, cnf, d.now), cnf, d);
  }

  // ------------------------------------------------------- how long it lasts

  /** The retry time in seconds is the health check interval in units of
      2^30 nanoseconds, rounded up to the next whole one, and so at least one. */
  lemma RetrySpan(cnf: Config)
    ensures var r := RetryInterval(cnf); r >= 1 && (r - 1) * 0x4000_0000 <= cnf.interval < r * 0x4000_0000
  {
  }

  /** Operations in which a destination is chosen. */
  predicate Chooses(op: Op) {
    op.DoChoose? || op.DoChooseAgain?
  }

  /** No check made by this operation starts at `until` or later. */
  ghost predicate ChecksBefore(op: Op, until: int) {
    Chooses(op) ==> forall i :: op.d.probe(i).started < until
  }

  ghost predicate KeepsListed(op: Op, a: Addr) {
    op.DoChange? && op.c.addr == a ==> op.c.weight >= 0.0
  }

  /** The state the choice itself starts from: failing over gives the old connection
      back first. */
  ghost function ChoiceState(s: State, cnf: Config, op: Op): (t: State)
    requires Inv(s, cnf) && Enabled(s, op) && Chooses(op)
    ensures Inv(t, cnf) && Apply(s, cnf, op) == Choose(t, cnf, op.d).0
    ensures SameAddrs(s, t)
  {
    match op
    case DoChoose(_) => s
    case DoChooseAgain(a, now, _) =>
      DisconnectRefines(s, cnf, a, true, now);
      DisconnectKeepsAddrs(s, cnf, a, true, now);
      Disconnect(s, cnf, a, true, now).0
  }

  /** The row the choice takes. */
  ghost function ChoiceOf(s: State, cnf: Config, op: Op): Option<nat>
    requires Inv(s, cnf) && Enabled(s, op) && Chooses(op)
  {
    Choose(ChoiceState(s, cnf, op), cnf, op.d).1
  }

  /** What a later step may do to the record of one destination: an answer stays unless
      a check starts after the probing interval, and a failure is never taken back. */
  ghost predicate Lasts(e: Entry, f: Entry, op: Op, extra: nat, start: int) {
    && f.addr == e.addr && f.probed == e.probed
    && (ChecksBefore(op, e.checked + extra) ==> f.checked == e.checked)
    && (Failover.OpFrom(op, start) && e.failed >= start ==> f.failed >= start)
  }

  lemma ChooseLasts(s: State, cnf: Config, d: Draw, a: Addr, start: int)
    requires Inv(s, cnf) && Has(s.dst, a)
    ensures var t := Choose(s, cnf, d).0;
            Has(t.dst, a) && Lasts(EntryOf(s, a), EntryOf(t, a), DoChoose(d), cnf.extra, start)
  {
    ChooseRecords(s, cnf, d);
    ChooseKeepsAddrs(s, cnf, d);
    SameIndex(s.dst, Choose(s, cnf, d).0.dst, a);
  }

  lemma DisconnectLasts(s: State, cnf: Config, a: Addr, b: Addr, failed: bool, now: int)
    requires Inv(s, cnf) && Has(s.dst, a) && MayDisconnect(s, b)
    ensures var t := Disconnect(s, cnf, b, failed, now).0;
            && Has(t.dst, a)
            && var e, f := EntryOf(s, a), EntryOf(t, a);
               f.addr == e.addr && f.probed == e.probed && f.checked == e.checked && f.failed in {e.failed, now}
  {
    DisconnectKeepsOthers(s, cnf, b, failed, now);
    DisconnectKeepsAddrs(s, cnf, b, failed, now);
    SameIndex(s.dst, Disconnect(s, cnf, b, failed, now).0.dst, a);
  }

  lemma StepLasts(s: State, cnf: Config, op: Op, a: Addr, start: int)
    requires Inv(s, cnf) && Enabled(s, op) && Has(s.dst, a) && KeepsListed(op, a)
    ensures var t := Apply(s, cnf, op); Has(t.dst, a) && Lasts(EntryOf(s, a), EntryOf(t, a), op, cnf.extra, start)
  {
    match op
    case DoChange(c) =>
      if c.addr == a { ChangeOfNamed(s, cnf, c); } else { ChangeKeepsOthers(s, cnf, c, a); }
    case DoChoose(d) => ChooseLasts(s, cnf, d, a, start);
    case DoDisconnect(b, failed, now) => DisconnectLasts(s, cnf, a, b, failed, now);
    case DoChooseAgain(b, now, d) =>
      DisconnectLasts(s, cnf, a, b, true, now);
      ChooseLasts(ChoiceState(s, cnf, op), cnf, d, a, start);
  }

  /** The operations from `k` to `m` do not remove `a`. */
  ghost predicate Listed(ops: seq<Op>, k: nat, m: nat, a: Addr) {
    forall j {:trigger ops[j]} :: k <= j < m && j < |ops| ==> KeepsListed(ops[j], a)
  }

  ghost predicate AllChecksBefore(ops: seq<Op>, k: nat, m: nat, until: int) {
    forall j {:trigger ops[j]} :: k <= j < m && j < |ops| ==> ChecksBefore(ops[j], until)
  }

  ghost predicate AllFrom(ops: seq<Op>, k: nat, m: nat, start: int) {
    forall j {:trigger ops[j]} :: k <= j < m && j < |ops| ==> Failover.OpFrom(ops[j], start)
  }

  lemma {:induction false} RunLasts(run: seq<State>, cnf: Config, ops: seq<Op>, k: nat, m: nat, a: Addr, start: int)
    requires IsRun(run, cnf, ops) && k <= m < |run| && Has(run[k].dst, a) && Listed(ops, k, m, a)
    ensures Has(run[m].dst, a) && LastsThrough(EntryOf(run[k], a), EntryOf(run[m], a), cnf, ops, k, m, start)
    decreases m
  {
    if k < m {
      RunLasts(run, cnf, ops, k, m - 1, a, start);
      RunStepLasts(run, cnf, ops, m - 1, a, start);
      OneMoreLasts(EntryOf(run[k], a), EntryOf(run[m - 1], a), EntryOf(run[m], a), cnf, ops, k, m, start);
    }
  }

  lemma RunStepLasts(run: seq<State>, cnf: Config, ops: seq<Op>, k: nat, a: Addr, start: int)
    requires IsRun(run, cnf, ops) && k < |ops| && Has(run[k].dst, a) && KeepsListed(ops[k], a)
    ensures Has(run[k + 1].dst, a)
    ensures Lasts(EntryOf(run[k], a), EntryOf(run[k + 1], a), ops[k], cnf.extra, start)
  {
    RunRefines(run, cnf, ops);
    assert run[k + 1] == Apply(run[k], cnf, ops[k]);
    StepLasts(run[k], cnf, ops[k], a, start);
  }

  /** The record of one destination through the operations from `k` to `m`. */
  ghost predicate LastsThrough(e: Entry, f: Entry, cnf: Config, ops: seq<Op>, k: nat, m: nat, start: int) {
    && f.addr == e.addr && f.probed == e.probed
    && (AllChecksBefore(ops, k, m, e.checked + cnf.extra) ==> f.checked == e.checked)
    && (AllFrom(ops, k, m, start) && e.failed >= start ==> f.failed >= start)
  }

  lemma OneMoreLasts(e: Entry, f: Entry, g: Entry, cnf: Config, ops: seq<Op>, k: nat, m: nat, start: int)
    requires k < m <= |ops| && LastsThrough(e, f, cnf, ops, k, m - 1, start)
    requires Lasts(f, g, ops[m - 1], cnf.extra, start)
    ensures LastsThrough(e, g, cnf, ops, k, m, start)
  {
    var op := ops[m - 1];
    assert AllChecksBefore(ops, k, m, e.checked + cnf.extra) ==> ChecksBefore(op, e.checked + cnf.extra);
    assert AllFrom(ops, k, m, start) ==> Failover.OpFrom(op, start);
  }

  /** The step of a run in which row `i` was asked or taken, seen as a record. */
  lemma RunRecords(run: seq<State>, cnf: Config, ops: seq<Op>, k: nat, i: nat)
    requires IsRun(run, cnf, ops) && k < |ops| && Chooses(ops[k]) && i < |run[k].dst|
    ensures Inv(run[k], cnf) && Inv(run[k + 1], cnf)
    ensures var s := ChoiceState(run[k], cnf, ops[k]);
            && WellFormed(Prepared(s, cnf, ops[k].d.now))
            && Prepared(s, cnf, ops[k].d.now).dst == s.dst
            && Recorded(Prepared(s, cnf, ops[k].d.now), cnf, ops[k].d, run[k + 1], ChoiceOf(run[k], cnf, ops[k]))
            && |run[k + 1].dst| == |run[k].dst| && Has(run[k + 1].dst, run[k].dst[i].addr)
            && EntryOf(run[k + 1], run[k].dst[i].addr) == run[k + 1].dst[i]
  {
    RunRefines(run, cnf, ops);
    var s, t := ChoiceState(run[k], cnf, ops[k]), run[k + 1];
    assert t == Apply(run[k], cnf, ops[k]);
    ChooseRecords(s, cnf, ops[k].d);
    ChooseKeepsAddrs(s, cnf, ops[k].d);
    IndexOf(t.dst, i);
  }

  /** In every run of the router: once a destination was asked and answered READY at
      `stamp`, every check of it that starts before `stamp` plus the probing interval
      passes, whatever a probe would say, through any operations that keep it listed. */
  lemma ReadyAnswerLasts(run: seq<State>, cnf: Config, ops: seq<Op>, k: nat, m: nat, i: nat)
    requires IsRun(run, cnf, ops) && k < |ops| && k < m < |run| && Chooses(ops[k]) && i < |run[k].dst|
    requires Inv(run[k], cnf) && ChoiceOf(run[k], cnf, ops[k]) == Some(i)
    requires Due(ChoiceState(run[k], cnf, ops[k]).dst[i], ProbeInterval(cnf), ops[k].d.probe(i))
    requires Listed(ops, k + 1, m, run[k].dst[i].addr)
    requires AllChecksBefore(ops, k + 1, m, ops[k].d.probe(i).stamp + cnf.extra)
    ensures var a, stamp := run[k].dst[i].addr, ops[k].d.probe(i).stamp;
            && Has(run[m].dst, a) && EntryOf(run[m], a).checked == stamp
            && forall p: Probe :: p.started < stamp + cnf.extra ==> CheckPasses(EntryOf(run[m], a), cnf.extra, p)
  {
    RunRecords(run, cnf, ops, k, i);
    RunLasts(run, cnf, ops, k + 1, m, run[k].dst[i].addr, 0);
  }

  /** The choice came to this row and the destination did not answer READY. */
  ghost predicate Fails(s: State, cnf: Config, op: Op, i: nat)
    requires Inv(s, cnf) && Enabled(s, op) && Chooses(op) && i < |s.dst|
  {
    var t, r := ChoiceState(s, cnf, op), ChoiceOf(s, cnf, op);
    PreparedWellFormed(t, cnf, op.d.now);
    ChooseKeepsAddrs(t, cnf, op.d);
    var p := Prepared(t, cnf, op.d.now);
    r != Some(i) && Wanted(p, cnf, op.d, i) && Before(p, cnf, r, i)
  }

  /** In every run: a destination whose probe failed carries the time read then, or a
      later one, and until the retry time has passed it is not eligible, so no policy
      that looks at eligibility takes it. */
  lemma FailedAnswerLasts(run: seq<State>, cnf: Config, ops: seq<Op>, k: nat, m: nat, i: nat, now: int)
    requires IsRun(run, cnf, ops) && k < |ops| && k < m < |run| && Chooses(ops[k]) && i < |run[k].dst|
    requires Inv(run[k], cnf) && Fails(run[k], cnf, ops[k], i)
    requires Listed(ops, k + 1, m, run[k].dst[i].addr) && AllFrom(ops, k + 1, m, ops[k].d.probe(i).failedAt)
    requires now <= ops[k].d.probe(i).failedAt + RetryInterval(cnf)
    ensures i < |run[k + 1].dst| && run[k + 1].dst[i].failed == ops[k].d.probe(i).failedAt
    ensures var a := run[k].dst[i].addr;
            && Has(run[m].dst, a) && EntryOf(run[m], a).failed >= ops[k].d.probe(i).failedAt
            && Inv(run[m], cnf) && !Eligible(UpdateCtx(run[m], cnf, now), Index(run[m].dst, a))
            && forall d: Draw :: !UsesMap(cnf) && d.now == now
                 && Failover.ProbesFrom(d.probe, ops[k].d.probe(i).failedAt)
                 ==> Choose(run[m], cnf, d).1 != Some(Index(run[m].dst, a))
  {
    RunRecords(run, cnf, ops, k, i);
    var a, start := run[k].dst[i].addr, ops[k].d.probe(i).failedAt;
    RunLasts(run, cnf, ops, k + 1, m, a, start);
    RunRefines(run, cnf, ops);
    FailedIsOut(run[m], cnf, Index(run[m].dst, a), start, now);
  }

  lemma FailedIsOut(s: State, cnf: Config, j: nat, start: int, now: int)
    requires Inv(s, cnf) && j < |s.dst| && s.dst[j].failed >= start && now <= start + RetryInterval(cnf)
    ensures !Eligible(UpdateCtx(s, cnf, now), j)
    ensures forall d: Draw :: !UsesMap(cnf) && d.now == now && Failover.ProbesFrom(d.probe, start)
              ==> Choose(s, cnf, d).1 != Some(j)
  {
    forall d: Draw | !UsesMap(cnf) && d.now == now && Failover.ProbesFrom(d.probe, start)
      ensures Choose(s, cnf, d).1 != Some(j)
    {
      Failover.ChooseAvoidsRecent(s, cnf, d, start, {j}, now);
    }
  }
}
