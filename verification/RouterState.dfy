/** The router's state as a value, and each of its critical sections as a pure
    step on that value (src/glb_router.c).

    Doubles are reals, `time_t` readings are integers handed in by the caller,
    and the outcome of an extra probe is an input.  The table pointer `top_dst`
    is an index, because every reallocation of the table also clears it. */
module RouterState {

  datatype Option<+T> = None | Some(value: T)

  /** A socket address; addresses are compared byte by byte. */
  datatype Addr = Addr(host: nat, port: nat)

  datatype Policy = Least | Round | Single | Random | Source

  datatype Config = Config(
    policy: Policy,
    top: bool,       // --top: balance only between the top-weighted destinations
    interval: nat,   // health check interval, nanoseconds
    extra: nat)      // extra check interval, nanoseconds; 0 disables probing

  /** One row of the destination table. */
  datatype Entry = Entry(
    addr: Addr,
    weight: real,
    usage: real,     // weight / (conns + 1): bigger wins
    share: real,     // upper end of this row's part of (0, 1)
    checked: int,    // nanoseconds
    failed: int,     // seconds
    conns: nat,
    probed: bool)    // has a probe context

  datatype Context = Context(minWeight: real, retry: int, now: int)

  datatype State = State(
    dst: seq<Entry>,
    conns: int,
    next: nat,           // round-robin cursor
    top: Option<nat>,
    ctx: Context,
    mapFailed: int,
    topFailed: int)

  /** What one extra probe would see: the time it starts at, whether the
      destination answers READY, the result's timestamp, and the time read when
      it does not. */
  datatype Probe = Probe(started: int, ready: bool, stamp: int, failedAt: int)

  type Hint = h: nat | h < 0x1_0000_0000

  const EPS: real := 1.0 / 2251799813685248.0   // DBL_EPSILON * 2
  const FACTOR: real := 1.0 + EPS
  const DIV_PROT: real := 0.000000001
  const ENONET: int := 64

  // ---------------------------------------------------------------- shape

  /** Cursor and top index stay inside the table. */
  predicate WellFormed(s: State) {
    && (s.next < |s.dst| || (|s.dst| == 0 && s.next == 0))
    && (s.top.Some? ==> s.top.value < |s.dst|)
  }

  // ------------------------------------------------------------ decisions

  function RetryInterval(cnf: Config): int {
    cnf.interval / 0x4000_0000 + 1
  }

  predicate GoodBase(e: Entry, ctx: Context) {
    ctx.now - e.failed > ctx.retry
  }

  predicate Good(e: Entry, minWeight: real, ctx: Context) {
    e.weight >= minWeight && GoodBase(e, ctx)
  }

  /** Eligible under the current decision context. */
  predicate Eligible(s: State, i: nat)
    requires i < |s.dst|
  {
    Good(s.dst[i], s.ctx.minWeight, s.ctx)
  }

  predicate TopIsGood(s: State)
    requires WellFormed(s)
  {
    s.top.Some? && Good(s.dst[s.top.value], EPS, s.ctx)
  }

  function MinWeight(s: State): real
    requires WellFormed(s)
  {
    if TopIsGood(s) then s.dst[s.top.value].weight else EPS
  }

  predicate UsesMap(cnf: Config) {
    cnf.policy.Random? || cnf.policy.Source?
  }

  function Usage(weight: real, conns: nat): real {
    weight / (conns + 1) as real
  }

  function WithConns(e: Entry, conns: nat): Entry {
    e.(conns := conns, usage := Usage(e.weight, conns))
  }

  // -------------------------------------------------------- extra probing

  predicate SkipsProbe(e: Entry, extra: nat, p: Probe) {
    extra == 0 || !e.probed || p.started - e.checked < extra
  }

  predicate CheckPasses(e: Entry, extra: nat, p: Probe) {
    SkipsProbe(e, extra, p) || p.ready
  }

  function AfterCheck(e: Entry, extra: nat, p: Probe): Entry {
    if SkipsProbe(e, extra, p) then e
    else if p.ready then e.(checked := p.stamp)
    else e.(failed := p.failedAt)
  }

  function CheckAt(s: State, i: nat, extra: nat, p: Probe): State
    requires i < |s.dst|
  {
    s.(dst := s.dst[i := AfterCheck(s.dst[i], extra, p)])
  }

  // --------------------------------------------------- context, top, map

  function UpdateCtx(s: State, cnf: Config, now: int): (r: State)
    requires WellFormed(s)
  {
    var s1 := s.(ctx := s.ctx.(now := now, retry := RetryInterval(cnf)));
    s1.(ctx := s1.ctx.(minWeight := MinWeight(s1)))
  }

  function TopScan(s: State, i: nat): (r: State)
    requires i <= |s.dst|
    decreases |s.dst| - i
  {
    if i == |s.dst| then s
    else TopScan(TopStep(s, i), i + 1)
  }

  function TopStep(s: State, i: nat): State
    requires i < |s.dst|
  {
    if Good(s.dst[i], s.ctx.minWeight * FACTOR, s.ctx)
    then s.(top := Some(i), ctx := s.ctx.(minWeight := s.dst[i].weight))
    else s
  }

  function RedoTop(s: State): State {
    TopScan(s, 0)
  }

  /** The weight destination `i` takes part with. */
  function OwnWeight(s: State, i: nat): real
    requires i < |s.dst|
  {
    if Eligible(s, i) then s.dst[i].weight else 0.0
  }

  /** The weight of the eligible destinations among the first `n`. */
  function GoodWeight(s: State, n: nat): real
    requires n <= |s.dst|
  {
    if n == 0 then 0.0 else GoodWeight(s, n - 1) + OwnWeight(s, n - 1)
  }

  /** Upper end of the part of (0, 1) that belongs to destination `i`; with
      nothing to divide the weights stay as pass one left them. */
  function Share(s: State, i: nat): real
    requires i < |s.dst|
  {
    var total := GoodWeight(s, |s.dst|);
    if total == 0.0 then OwnWeight(s, i) else GoodWeight(s, i + 1) / total
  }

  function RedoMap(s: State): State {
    s.(dst := seq(|s.dst|, i requires 0 <= i < |s.dst| => s.dst[i].(share := Share(s, i))))
  }

  function Refresh(s: State, cnf: Config, now: int): State
    requires WellFormed(s)
  {
    var s1 := UpdateCtx(s, cnf, now);
    var s2 := if cnf.top then RedoTop(s1) else s1;
    if UsesMap(cnf) then RedoMap(s2) else s2
  }

  // ------------------------------------------------------- changing the table

  function IndexFrom(dst: seq<Entry>, a: Addr, i: nat): (r: nat)
    requires i <= |dst|
    ensures i <= r <= |dst|
    ensures forall k :: i <= k < r ==> dst[k].addr != a
    ensures r < |dst| ==> dst[r].addr == a
    decreases |dst| - i
  {
    if i == |dst| || dst[i].addr == a then i else IndexFrom(dst, a, i + 1)
  }

  /** The first row that holds `a`, or the table length. */
  function Index(dst: seq<Entry>, a: Addr): (r: nat)
    ensures r <= |dst|
    ensures forall k :: 0 <= k < r ==> dst[k].addr != a
    ensures r < |dst| ==> dst[r].addr == a
  {
    IndexFrom(dst, a, 0)
  }

  /** `junk` is what the freshly allocated `map` member happens to hold. */
  function Appended(s: State, a: Addr, weight: real, probed: bool, nowNs: int, junk: real): State {
    var e := Entry(a, weight, Usage(weight, 0), junk, nowNs, 0, 0, probed);
    s.(dst := s.dst + [e], top := None)
  }

  function Removed(s: State, i: nat): State
    requires i < |s.dst|
  {
    var last := |s.dst| - 1;
    s.(dst := s.dst[i := s.dst[last]][..last],
       conns := s.conns - s.dst[i].conns,
       next := if last > 0 then s.next % last else 0,
       top := None)
  }

  function Reweighted(s: State, i: nat, weight: real): State
    requires i < |s.dst|
  {
    s.(dst := s.dst[i := s.dst[i].(weight := weight, usage := Usage(weight, s.dst[i].conns))])
  }

  datatype Change = Change(addr: Addr, weight: real, probed: bool, nowNs: int, now: int, junk: real)

  /** `glb_router_change_dst` past the wait for connecting threads, with the row it
      found before waiting: the new state, and the row index or a negative error
      code. */
  function ChangeFound(s: State, cnf: Config, c: Change, found: Option<nat>): (State, int)
    requires WellFormed(s) && (found.Some? ==> found.value < |s.dst|)
  {
    match found
    case None =>
      if c.weight < 0.0 then (s, -ENONET)
      else (Refresh(Appended(s, c.addr, c.weight, c.probed, c.nowNs, c.junk), cnf, c.now), |s.dst|)
    case Some(i) =>
      if c.weight < 0.0 then
        RemovedWellFormed(s, i);
        (Refresh(Removed(s, i), cnf, c.now), i)
      else if s.dst[i].weight != c.weight then
        (Refresh(Reweighted(s, i, c.weight), cnf, c.now), i)
      else (s, i)
  }

  function Found(s: State, a: Addr): (r: Option<nat>)
    ensures r.Some? ==> r.value < |s.dst|
  {
    var i := Index(s.dst, a);
    if i < |s.dst| then Some(i) else None
  }

  function ChangeDst(s: State, cnf: Config, c: Change): (State, int)
    requires WellFormed(s)
  {
    ChangeFound(s, cnf, c, Found(s, c.addr))
  }

  lemma RemovedWellFormed(s: State, i: nat)
    requires WellFormed(s) && i < |s.dst|
    ensures WellFormed(Removed(s, i))
  {
  }

  // ----------------------------------------------------------- choosing

  /** The least-connected scan from row `i` with `best` found so far. */
  function LeastScan(s: State, i: nat, best: Option<nat>): (r: Option<nat>)
    requires i <= |s.dst|
    requires best.Some? ==> best.value < |s.dst|
    ensures r.Some? ==> r.value < |s.dst|
    decreases |s.dst| - i
  {
    if i == |s.dst| then best
    else
      var bar := if best.Some? then s.dst[best.value].usage else 0.0;
      LeastScan(s, i + 1, if s.dst[i].usage > bar && Eligible(s, i) then Some(i) else best)
  }

  function ChooseLeast(s: State, extra: nat, probe: nat -> Probe): (r: (State, Option<nat>))
    ensures r.1.Some? ==> r.1.value < |r.0.dst|
  {
    match LeastScan(s, 0, None)
    case None => (s, None)
    case Some(i) =>
      (CheckAt(s, i, extra, probe(i)),
       if CheckPasses(s.dst[i], extra, probe(i)) then Some(i) else None)
  }

  function Advanced(s: State): State
    requires |s.dst| > 0
  {
    s.(next := (s.next + 1) % |s.dst|)
  }

  /** Round robin with `left` rows still to look at. */
  function RoundScan(s: State, left: nat, extra: nat, probe: nat -> Probe): (r: (State, Option<nat>))
    requires WellFormed(s) && left <= |s.dst|
    ensures r.1.Some? ==> r.1.value < |r.0.dst|
    decreases left
  {
    if left == 0 then (s, None)
    else
      var i := s.next;
      var s1 := Advanced(s);
      if !Eligible(s1, i) then RoundScan(s1, left - 1, extra, probe)
      else
        var s2 := CheckAt(s1, i, extra, probe(i));
        if CheckPasses(s1.dst[i], extra, probe(i)) then (s2, Some(i))
        else RoundScan(s2, left - 1, extra, probe)
  }

  function ChooseRound(s: State, extra: nat, probe: nat -> Probe): (r: (State, Option<nat>))
    requires WellFormed(s)
    ensures r.1.Some? ==> r.1.value < |r.0.dst|
  {
    RoundScan(s, |s.dst|, extra, probe)
  }

  function ChooseSingle(s: State): (r: (State, Option<nat>))
    requires WellFormed(s)
    ensures r.1.Some? ==> r.1.value < |r.0.dst|
  {
    (s, if TopIsGood(s) then s.top else None)
  }

  function Point(hint: Hint): real {
    hint as real / 4294967295.0 - DIV_PROT
  }

  /** The map lookup from row `i` on. */
  function HintScan(s: State, i: nat, point: real, extra: nat, probe: nat -> Probe): (r: (State, Option<nat>))
    requires i <= |s.dst|
    ensures r.1.Some? ==> r.1.value < |r.0.dst|
    decreases |s.dst| - i
  {
    if i == |s.dst| then (s, None)
    else if !(point < s.dst[i].share) then HintScan(s, i + 1, point, extra, probe)
    else
      var s1 := CheckAt(s, i, extra, probe(i));
      if CheckPasses(s.dst[i], extra, probe(i)) then (s1, Some(i))
      else HintScan(s1, i + 1, point, extra, probe)
  }

  function MapFreshened(s: State, cnf: Config): State {
    if UsesMap(cnf) && s.mapFailed != 0 && s.ctx.now - s.mapFailed > s.ctx.retry
    then RedoMap(s).(mapFailed := 0) else s
  }

  function ChooseHint(s: State, cnf: Config, hint: Hint, probe: nat -> Probe): (r: (State, Option<nat>))
    ensures r.1.Some? ==> r.1.value < |r.0.dst|
  {
    if |s.dst| == 0 then (s, None)
    else HintScan(MapFreshened(s, cnf), 0, Point(hint), cnf.extra, probe)
  }

  /** Inputs of one choice: the clock, the client's hint, the generator's next
      value, and what probing each row would see. */
  datatype Draw = Draw(now: int, hint: Hint, random: Hint, probe: nat -> Probe)

  function TopFreshened(s: State, cnf: Config): State {
    if cnf.top && s.topFailed != 0 && s.ctx.now - s.topFailed > s.ctx.retry
    then RedoTop(s).(topFailed := 0) else s
  }

  function Prepared(s: State, cnf: Config, now: int): State
    requires WellFormed(s)
  {
    TopFreshened(UpdateCtx(s, cnf, now), cnf)
  }

  function Pick(s: State, cnf: Config, d: Draw): (r: (State, Option<nat>))
    requires WellFormed(s)
    ensures r.1.Some? ==> r.1.value < |r.0.dst|
  {
    match cnf.policy
    case Least => ChooseLeast(s, cnf.extra, d.probe)
    case Round => ChooseRound(s, cnf.extra, d.probe)
    case Single => ChooseSingle(s)
    case Random => ChooseHint(s, cnf, d.random, d.probe)
    case Source => ChooseHint(s, cnf, d.hint, d.probe)
  }

  function Acquired(s: State, i: nat): State
    requires i < |s.dst|
  {
    s.(dst := s.dst[i := WithConns(s.dst[i], s.dst[i].conns + 1)], conns := s.conns + 1)
  }

  function Released(s: State, i: nat): State
    requires i < |s.dst| && s.dst[i].conns > 0
  {
    s.(dst := s.dst[i := WithConns(s.dst[i], s.dst[i].conns - 1)], conns := s.conns - 1)
  }

  /** `router_choose_dst`: the new state and the row chosen, if any. */
  function Choose(s: State, cnf: Config, d: Draw): (r: (State, Option<nat>))
    requires WellFormed(s)
    ensures r.1.Some? ==> r.1.value < |r.0.dst|
  {
    PreparedWellFormed(s, cnf, d.now);
    var (s1, r) := Pick(Prepared(s, cnf, d.now), cnf, d);
    (if r.Some? then Acquired(s1, r.value) else s1, r)
  }

  // ----------------------------------------------- failure and disconnection

  function DstFailed(s: State, cnf: Config, i: nat, now: int): State
    requires WellFormed(s) && i < |s.dst|
  {
    var s1 := s.(ctx := s.ctx.(now := now, retry := RetryInterval(cnf)));
    var s2 := s1.(dst := s1.dst[i := s1.dst[i].(failed := now)]);
    if !Eligible(s1, i) then s2
    else
      var s3 := if s.top == Some(i)
                then RedoTop(s2.(ctx := s2.ctx.(minWeight := EPS))).(topFailed := now)
                else s2;
      if UsesMap(cnf) then RedoMap(s3).(mapFailed := now) else s3
  }

  /** `router_disconnect`: row index, or the table length when `a` is unknown. */
  function Disconnect(s: State, cnf: Config, a: Addr, failed: bool, now: int): (State, nat)
    requires WellFormed(s)
    requires Index(s.dst, a) < |s.dst| ==> s.dst[Index(s.dst, a)].conns > 0
  {
    var i := Index(s.dst, a);
    if i == |s.dst| then (s, i)
    else
      var s1 := Released(s, i);
      (if failed then DstFailed(s1, cnf, i, now) else s1, i)
  }

  function ChooseAgain(s: State, cnf: Config, a: Addr, now: int, d: Draw): (State, Option<nat>)
    requires WellFormed(s)
    requires Index(s.dst, a) < |s.dst| ==> s.dst[Index(s.dst, a)].conns > 0
  {
    DisconnectWellFormed(s, cnf, a, true, now);
    Choose(Disconnect(s, cnf, a, true, now).0, cnf, d)
  }

  // ------------------------------------------------- shape is never lost

  lemma {:induction false} TopScanShape(s: State, i: nat)
    requires WellFormed(s) && i <= |s.dst|
    ensures WellFormed(TopScan(s, i))
    ensures TopScan(s, i).(top := s.top, ctx := s.ctx) == s
    ensures TopScan(s, i).ctx.(minWeight := s.ctx.minWeight) == s.ctx
    decreases |s.dst| - i
  {
    if i < |s.dst| {
      TopScanShape(TopStep(s, i), i + 1);
    }
  }

  lemma PreparedWellFormed(s: State, cnf: Config, now: int)
    requires WellFormed(s)
    ensures WellFormed(Prepared(s, cnf, now))
    ensures Prepared(s, cnf, now).dst == s.dst
  {
    TopScanShape(UpdateCtx(s, cnf, now), 0);
  }

  lemma RefreshWellFormed(s: State, cnf: Config, now: int)
    requires WellFormed(s)
    ensures WellFormed(Refresh(s, cnf, now))
  {
    TopScanShape(UpdateCtx(s, cnf, now), 0);
  }

  lemma DstFailedWellFormed(s: State, cnf: Config, i: nat, now: int)
    requires WellFormed(s) && i < |s.dst|
    ensures WellFormed(DstFailed(s, cnf, i, now))
  {
    var s1 := s.(ctx := s.ctx.(now := now, retry := RetryInterval(cnf)));
    var s2 := s1.(dst := s1.dst[i := s1.dst[i].(failed := now)]);
    TopScanShape(s2.(ctx := s2.ctx.(minWeight := EPS)), 0);
  }

  lemma DisconnectWellFormed(s: State, cnf: Config, a: Addr, failed: bool, now: int)
    requires WellFormed(s)
    requires Index(s.dst, a) < |s.dst| ==> s.dst[Index(s.dst, a)].conns > 0
    ensures WellFormed(Disconnect(s, cnf, a, failed, now).0)
  {
    var i := Index(s.dst, a);
    if i < |s.dst| {
      DstFailedWellFormed(Released(s, i), cnf, i, now);
    }
  }
}
