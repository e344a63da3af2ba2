/** The destination table refines a finite map from address to weight and
    connection count, over every run of the router's operations. */
module RouterInvariant {
  import opened RouterState

  // ------------------------------------------------------- the abstraction

  /** What the rest of the system may know of one destination. */
  datatype Row = Row(weight: real, conns: nat)

  ghost predicate Distinct(dst: seq<Entry>) {
    forall i, j :: 0 <= i < j < |dst| ==> dst[i].addr != dst[j].addr
  }

  ghost predicate Has(dst: seq<Entry>, a: Addr) {
    Index(dst, a) < |dst|
  }

  ghost function RowOf(e: Entry): Row {
    Row(e.weight, e.conns)
  }

  /** The table as a map; `RowsAre` says every row is in it. */
  ghost function Rows(dst: seq<Entry>): (m: map<Addr, Row>) {
    map a | a in (set e | e in dst :: e.addr) && Has(dst, a) :: RowOf(dst[Index(dst, a)])
  }

  function TotalConns(dst: seq<Entry>): nat {
    if dst == [] then 0 else TotalConns(dst[..|dst| - 1]) + dst[|dst| - 1].conns
  }

  ghost predicate UsageOk(e: Entry) {
    e.usage == Usage(e.weight, e.conns)
  }

  /** The table part of the invariant: it holds inside critical sections too. */
  ghost predicate TableInv(s: State) {
    && WellFormed(s)
    && Distinct(s.dst)
    && s.conns == TotalConns(s.dst)
    && (forall i {:trigger UsageOk(s.dst[i])} :: 0 <= i < |s.dst| ==> UsageOk(s.dst[i]))
  }

  /** Everything the router keeps true between critical sections. */
  ghost predicate Inv(s: State, cnf: Config) {
    && TableInv(s)
    && (|s.dst| > 0 ==> s.ctx.minWeight >= EPS)
    && (!cnf.top ==> s.top.None?)
  }

  const Start: State := State([], 0, 0, None, Context(0.0, 0, 0), 0, 0)

  // ------------------------------------------------------ abstract operations

  function MapChange(m: map<Addr, Row>, a: Addr, weight: real): map<Addr, Row> {
    if weight < 0.0 then m - {a}
    else if a in m then m[a := Row(weight, m[a].conns)]
    else m[a := Row(weight, 0)]
  }

  function MapRelease(m: map<Addr, Row>, a: Addr): map<Addr, Row>
    requires a in m ==> m[a].conns > 0
  {
    if a in m then m[a := Row(m[a].weight, m[a].conns - 1)] else m
  }

  function MapAcquire(m: map<Addr, Row>, a: Addr): map<Addr, Row>
    requires a in m
  {
    m[a := Row(m[a].weight, m[a].conns + 1)]
  }

  // ---------------------------------------- changes that touch no row's key data

  ghost predicate SameRow(e: Entry, f: Entry) {
    e.addr == f.addr && e.weight == f.weight && e.conns == f.conns && e.usage == f.usage
  }

  ghost predicate SameRows(d: seq<Entry>, f: seq<Entry>) {
    |d| == |f| && forall i :: 0 <= i < |d| ==> SameRow(d[i], f[i])
  }

  lemma {:induction false} SameTotal(d: seq<Entry>, f: seq<Entry>)
    requires SameRows(d, f)
    ensures TotalConns(d) == TotalConns(f)
    decreases |d|
  {
    if d != [] {
      SameTotal(d[..|d| - 1], f[..|f| - 1]);
    }
  }

  lemma SameRowsKeep(s: State, t: State)
    requires TableInv(s) && SameRows(s.dst, t.dst)
    requires WellFormed(t) && t.conns == s.conns
    ensures TableInv(t) && Rows(t.dst) == Rows(s.dst)
  {
    SameTotal(s.dst, t.dst);
    forall i | 0 <= i < |t.dst|
      ensures UsageOk(t.dst[i])
    {
      assert UsageOk(s.dst[i]) && SameRow(s.dst[i], t.dst[i]);
    }
    forall a
      ensures Index(s.dst, a) == Index(t.dst, a)
    {
      SameIndex(s.dst, t.dst, a);
    }
    RowsAre(s.dst);
    RowsAre(t.dst);
  }

  lemma RowsAre(d: seq<Entry>)
    ensures forall a :: a in Rows(d) <==> Has(d, a)
    ensures forall a :: Has(d, a) ==> Rows(d)[a] == RowOf(d[Index(d, a)])
  {
  }

  lemma SameIndex(d: seq<Entry>, f: seq<Entry>, a: Addr)
    requires |d| == |f| && forall i :: 0 <= i < |d| ==> d[i].addr == f[i].addr
    ensures Index(d, a) == Index(f, a)
  {
    var i := Index(d, a);
    assert i < |d| ==> f[i].addr == a;
  }

  lemma IndexOf(d: seq<Entry>, i: nat)
    requires Distinct(d) && i < |d|
    ensures Index(d, d[i].addr) == i
  {
  }

  // ------------------------------------------------------------ row updates

  lemma {:induction false} TotalUpdate(d: seq<Entry>, i: nat, e: Entry)
    requires i < |d|
    ensures TotalConns(d[i := e]) == TotalConns(d) - d[i].conns + e.conns
    decreases |d|
  {
    var last := |d| - 1;
    if i == last {
      assert d[i := e][..last] == d[..last];
    } else {
      assert d[i := e][..last] == d[..last][i := e];
      TotalUpdate(d[..last], i, e);
    }
  }

  /** One lookup, with no map in sight. */
  ghost function Lookup(d: seq<Entry>, a: Addr): Option<Row> {
    if Has(d, a) then Some(RowOf(d[Index(d, a)])) else None
  }

  ghost function Get(m: map<Addr, Row>, a: Addr): Option<Row> {
    if a in m then Some(m[a]) else None
  }

  lemma RowsByLookup(d: seq<Entry>, m: map<Addr, Row>)
    requires forall a :: Lookup(d, a) == Get(m, a)
    ensures Rows(d) == m
  {
    RowsAre(d);
    forall a
      ensures Get(Rows(d), a) == Get(m, a)
    {
      assert Lookup(d, a) == Get(m, a);
    }
    assert forall a :: Get(m, a).Some? <==> a in m;
    assert forall a :: Get(Rows(d), a).Some? <==> a in Rows(d);
  }

  lemma LookupIsGet(d: seq<Entry>, a: Addr)
    ensures Lookup(d, a) == Get(Rows(d), a)
  {
    RowsAre(d);
  }

  lemma RowAt(d: seq<Entry>, i: nat)
    requires Distinct(d) && i < |d|
    ensures d[i].addr in Rows(d) && Rows(d)[d[i].addr] == RowOf(d[i])
  {
    IndexOf(d, i);
    LookupIsGet(d, d[i].addr);
  }

  lemma UpdatedLookup(d: seq<Entry>, i: nat, e: Entry, a: Addr)
    requires Distinct(d) && i < |d| && e.addr == d[i].addr
    ensures Lookup(d[i := e], a) == if a == e.addr then Some(RowOf(e)) else Lookup(d, a)
  {
    SameIndex(d, d[i := e], a);
    IndexOf(d, i);
  }

  /** Rewriting one row under the same address rewrites one map entry. */
  lemma UpdatedRows(d: seq<Entry>, i: nat, e: Entry)
    requires Distinct(d) && i < |d| && e.addr == d[i].addr
    ensures Rows(d[i := e]) == Rows(d)[e.addr := RowOf(e)]
  {
    var m := Rows(d)[e.addr := RowOf(e)];
    forall a
      ensures Lookup(d[i := e], a) == Get(m, a)
    {
      UpdatedLookup(d, i, e, a);
      LookupIsGet(d, a);
    }
    RowsByLookup(d[i := e], m);
  }

  lemma UpdatedTable(s: State, i: nat, e: Entry, conns: int)
    requires TableInv(s) && i < |s.dst|
    requires e.addr == s.dst[i].addr && UsageOk(e)
    requires conns == s.conns - s.dst[i].conns + e.conns
    ensures TableInv(s.(dst := s.dst[i := e], conns := conns))
  {
    TotalUpdate(s.dst, i, e);
  }

  lemma AcquiredRefines(s: State, i: nat)
    requires TableInv(s) && i < |s.dst|
    ensures TableInv(Acquired(s, i)) && s.dst[i].addr in Rows(s.dst)
    ensures Rows(Acquired(s, i).dst) == MapAcquire(Rows(s.dst), s.dst[i].addr)
  {
    AcquiredTable(s, i);
    var e := WithConns(s.dst[i], s.dst[i].conns + 1);
    assert e.addr == s.dst[i].addr && Acquired(s, i).dst == s.dst[i := e];
    AcquiredRows(s.dst, i, e);
  }

  lemma AcquiredTable(s: State, i: nat)
    requires TableInv(s) && i < |s.dst|
    ensures TableInv(Acquired(s, i))
  {
    UpdatedTable(s, i, WithConns(s.dst[i], s.dst[i].conns + 1), s.conns + 1);
  }

  lemma AcquiredRows(d: seq<Entry>, i: nat, e: Entry)
    requires Distinct(d) && i < |d| && RowOf(e) == Row(d[i].weight, d[i].conns + 1) && e.addr == d[i].addr
    ensures e.addr in Rows(d) && Rows(d[i := e]) == MapAcquire(Rows(d), e.addr)
  {
    RowAt(d, i);
    UpdatedRows(d, i, e);
  }

  lemma ReleasedRefines(s: State, i: nat)
    requires TableInv(s) && i < |s.dst| && s.dst[i].conns > 0
    ensures TableInv(Released(s, i)) && s.dst[i].addr in Rows(s.dst)
    ensures Rows(s.dst)[s.dst[i].addr].conns > 0
    ensures Rows(Released(s, i).dst) == MapRelease(Rows(s.dst), s.dst[i].addr)
  {
    ReleasedTable(s, i);
    var e := WithConns(s.dst[i], s.dst[i].conns - 1);
    assert e.addr == s.dst[i].addr && Released(s, i).dst == s.dst[i := e];
    ReleasedRows(s.dst, i, e);
  }

  lemma ReleasedTable(s: State, i: nat)
    requires TableInv(s) && i < |s.dst| && s.dst[i].conns > 0
    ensures TableInv(Released(s, i))
  {
    UpdatedTable(s, i, WithConns(s.dst[i], s.dst[i].conns - 1), s.conns - 1);
  }

  lemma ReleasedRows(d: seq<Entry>, i: nat, e: Entry)
    requires Distinct(d) && i < |d| && d[i].conns > 0
    requires RowOf(e) == Row(d[i].weight, d[i].conns - 1) && e.addr == d[i].addr
    ensures e.addr in Rows(d) && Rows(d)[e.addr].conns > 0 && Rows(d[i := e]) == MapRelease(Rows(d), e.addr)
  {
    RowAt(d, i);
    UpdatedRows(d, i, e);
  }

  lemma ReweightedRefines(s: State, i: nat, weight: real)
    requires TableInv(s) && i < |s.dst| && weight >= 0.0
    ensures TableInv(Reweighted(s, i, weight))
    ensures Rows(Reweighted(s, i, weight).dst) == MapChange(Rows(s.dst), s.dst[i].addr, weight)
  {
    RowAt(s.dst, i);
    var e := s.dst[i].(weight := weight, usage := Usage(weight, s.dst[i].conns));
    UpdatedRows(s.dst, i, e);
    UpdatedTable(s, i, e, s.conns);
  }

  lemma AppendedRefines(s: State, c: Change)
    requires TableInv(s) && !Has(s.dst, c.addr) && c.weight >= 0.0
    ensures var t := Appended(s, c.addr, c.weight, c.probed, c.nowNs, c.junk);
            TableInv(t) && Rows(t.dst) == MapChange(Rows(s.dst), c.addr, c.weight)
  {
    var t := Appended(s, c.addr, c.weight, c.probed, c.nowNs, c.junk);
    assert t.dst[..|t.dst| - 1] == s.dst;
    var m := MapChange(Rows(s.dst), c.addr, c.weight);
    LookupIsGet(s.dst, c.addr);
    forall a
      ensures Lookup(t.dst, a) == Get(m, a)
    {
      LookupIsGet(s.dst, a);
      AppendedLookup(s, c, a);
    }
    RowsByLookup(t.dst, m);
  }

  lemma AppendedLookup(s: State, c: Change, a: Addr)
    requires !Has(s.dst, c.addr)
    ensures var t := Appended(s, c.addr, c.weight, c.probed, c.nowNs, c.junk);
            Lookup(t.dst, a) == if a == c.addr then Some(Row(c.weight, 0)) else Lookup(s.dst, a)
  {
    var t := Appended(s, c.addr, c.weight, c.probed, c.nowNs, c.junk);
    var k := Index(s.dst, a);
    assert t.dst[|s.dst|].addr == c.addr;
    if k < |s.dst| {
      assert t.dst[k] == s.dst[k];
    }
  }

  /** Copying the last row over the removed one loses nothing else. */
  lemma RemovedRefines(s: State, i: nat)
    requires TableInv(s) && i < |s.dst|
    ensures TableInv(Removed(s, i))
    ensures Rows(Removed(s, i).dst) == Rows(s.dst) - {s.dst[i].addr}
  {
    RemovedTable(s, i);
    var m := Rows(s.dst) - {s.dst[i].addr};
    forall a
      ensures Lookup(Removed(s, i).dst, a) == Get(m, a)
    {
      LookupIsGet(s.dst, a);
      RemovedLookup(s, i, a);
    }
    RowsByLookup(Removed(s, i).dst, m);
  }

  lemma RemovedTable(s: State, i: nat)
    requires TableInv(s) && i < |s.dst|
    ensures TableInv(Removed(s, i))
  {
    RemovedWellFormed(s, i);
    TotalUpdate(s.dst, i, s.dst[|s.dst| - 1]);
  }

  lemma RemovedLookup(s: State, i: nat, a: Addr)
    requires Distinct(s.dst) && i < |s.dst|
    ensures Lookup(Removed(s, i).dst, a) == if a == s.dst[i].addr then None else Lookup(s.dst, a)
  {
    var t := Removed(s, i);
    var last := |s.dst| - 1;
    if Has(s.dst, a) && a != s.dst[i].addr {
      var k := Index(s.dst, a);
      var k' := if k == last then i else k;
      assert t.dst[k'] == s.dst[k];
      IndexOf(t.dst, k');
    }
  }

  // ---------------------------------------------------- the helper scans

  /** A step inside a critical section that leaves every row's key data alone. */
  ghost predicate Keeps(s: State, t: State) {
    SameRows(s.dst, t.dst) && t.conns == s.conns && (WellFormed(s) ==> WellFormed(t))
  }

  ghost predicate KeepsDecision(s: State, t: State) {
    Keeps(s, t) && t.top == s.top && t.ctx == s.ctx
  }

  lemma {:induction false} TopScanMin(s: State, i: nat)
    requires i <= |s.dst| && s.ctx.minWeight >= EPS
    ensures TopScan(s, i).ctx.minWeight >= s.ctx.minWeight
    decreases |s.dst| - i
  {
    if i < |s.dst| {
      TopScanMin(TopStep(s, i), i + 1);
    }
  }

  lemma RedoTopKeeps(s: State)
    requires WellFormed(s) && s.ctx.minWeight >= EPS
    ensures Keeps(s, RedoTop(s)) && RedoTop(s).ctx.minWeight >= EPS
  {
    TopScanShape(s, 0);
    TopScanMin(s, 0);
  }

  lemma RefreshKeeps(s: State, cnf: Config, now: int)
    requires TableInv(s) && (!cnf.top ==> s.top.None?)
    ensures Inv(Refresh(s, cnf, now), cnf) && Rows(Refresh(s, cnf, now).dst) == Rows(s.dst)
  {
    RedoTopKeeps(UpdateCtx(s, cnf, now));
    RefreshWellFormed(s, cnf, now);
    SameRowsKeep(s, Refresh(s, cnf, now));
  }

  lemma {:induction false} RoundScanKeeps(s: State, left: nat, extra: nat, probe: nat -> Probe)
    requires WellFormed(s) && left <= |s.dst|
    ensures KeepsDecision(s, RoundScan(s, left, extra, probe).0)
    decreases left
  {
    if left > 0 {
      var i := s.next;
      var s1 := Advanced(s);
      RoundScanKeeps(s1, left - 1, extra, probe);
      RoundScanKeeps(CheckAt(s1, i, extra, probe(i)), left - 1, extra, probe);
    }
  }

  lemma {:induction false} HintScanKeeps(s: State, i: nat, point: real, extra: nat, probe: nat -> Probe)
    requires WellFormed(s) && i <= |s.dst|
    ensures KeepsDecision(s, HintScan(s, i, point, extra, probe).0)
    decreases |s.dst| - i
  {
    if i < |s.dst| {
      HintScanKeeps(s, i + 1, point, extra, probe);
      HintScanKeeps(CheckAt(s, i, extra, probe(i)), i + 1, point, extra, probe);
    }
  }

  lemma PickKeeps(s: State, cnf: Config, d: Draw)
    requires WellFormed(s)
    ensures KeepsDecision(s, Pick(s, cnf, d).0)
  {
    match cnf.policy
    case Least =>
    case Round => RoundScanKeeps(s, |s.dst|, cnf.extra, d.probe);
    case Single =>
    case Random => HintScanKeeps(MapFreshened(s, cnf), 0, Point(d.random), cnf.extra, d.probe);
    case Source => HintScanKeeps(MapFreshened(s, cnf), 0, Point(d.hint), cnf.extra, d.probe);
  }

  lemma PreparedKeeps(s: State, cnf: Config, now: int)
    requires Inv(s, cnf)
    ensures Keeps(s, Prepared(s, cnf, now)) && Prepared(s, cnf, now).ctx.minWeight >= EPS
    ensures !cnf.top ==> Prepared(s, cnf, now).top.None?
  {
    PreparedWellFormed(s, cnf, now);
    RedoTopKeeps(UpdateCtx(s, cnf, now));
  }

  // -------------------------------------------------- the public operations

  /** Choosing adds one connection to one known destination, or changes no row. */
  lemma ChooseRefines(s: State, cnf: Config, d: Draw)
    requires Inv(s, cnf)
    ensures var (t, r) := Choose(s, cnf, d);
            && Inv(t, cnf) && |t.dst| == |s.dst|
            && t.conns == s.conns + (if r.Some? then 1 else 0)
            && (r.Some? ==> s.dst[r.value].addr == t.dst[r.value].addr && s.dst[r.value].addr in Rows(s.dst))
            && Rows(t.dst) == if r.Some? then MapAcquire(Rows(s.dst), s.dst[r.value].addr) else Rows(s.dst)
  {
    var p := Prepared(s, cnf, d.now);
    PreparedWellFormed(s, cnf, d.now);
    PreparedKeeps(s, cnf, d.now);
    SameRowsKeep(s, p);
    PickKeeps(p, cnf, d);
    var (q, r) := Pick(p, cnf, d);
    SameRowsKeep(p, q);
    if r.Some? {
      AcquiredRefines(q, r.value);
    }
  }

  lemma DstFailedKeeps(s: State, cnf: Config, i: nat, now: int)
    requires Inv(s, cnf) && i < |s.dst|
    ensures Inv(DstFailed(s, cnf, i, now), cnf)
    ensures Rows(DstFailed(s, cnf, i, now).dst) == Rows(s.dst)
  {
    var s1 := s.(ctx := s.ctx.(now := now, retry := RetryInterval(cnf)));
    var s2 := s1.(dst := s1.dst[i := s1.dst[i].(failed := now)]);
    RedoTopKeeps(s2.(ctx := s2.ctx.(minWeight := EPS)));
    DstFailedWellFormed(s, cnf, i, now);
    SameRowsKeep(s, DstFailed(s, cnf, i, now));
  }

  ghost predicate MayDisconnect(s: State, a: Addr) {
    Has(s.dst, a) ==> s.dst[Index(s.dst, a)].conns > 0
  }

  lemma DisconnectRefines(s: State, cnf: Config, a: Addr, failed: bool, now: int)
    requires Inv(s, cnf) && MayDisconnect(s, a)
    ensures a in Rows(s.dst) ==> Rows(s.dst)[a].conns > 0
    ensures var (t, i) := Disconnect(s, cnf, a, failed, now);
            && Inv(t, cnf) && Rows(t.dst) == MapRelease(Rows(s.dst), a)
            && (i < |s.dst| <==> a in Rows(s.dst))
            && t.conns == s.conns - (if a in Rows(s.dst) then 1 else 0)
  {
    RowsAre(s.dst);
    var i := Index(s.dst, a);
    if i < |s.dst| {
      ReleasedRefines(s, i);
      DstFailedKeeps(Released(s, i), cnf, i, now);
      DstFailedConns(Released(s, i), cnf, i, now);
    }
  }

  lemma DstFailedConns(s: State, cnf: Config, i: nat, now: int)
    requires WellFormed(s) && i < |s.dst|
    ensures DstFailed(s, cnf, i, now).conns == s.conns
  {
    var s1 := s.(ctx := s.ctx.(now := now, retry := RetryInterval(cnf)));
    var s2 := s1.(dst := s1.dst[i := s1.dst[i].(failed := now)]);
    TopScanShape(s2.(ctx := s2.ctx.(minWeight := EPS)), 0);
  }

  /** Failing over gives back the old connection, if its address is listed, and takes a
      new one, if a destination is found. */
  lemma ChooseAgainRefines(s: State, cnf: Config, a: Addr, now: int, d: Draw)
    requires Inv(s, cnf) && MayDisconnect(s, a)
    ensures a in Rows(s.dst) ==> Rows(s.dst)[a].conns > 0
    ensures var (t, r) := ChooseAgain(s, cnf, a, now, d);
            && Inv(t, cnf) && (r.Some? ==> r.value < |t.dst| && t.dst[r.value].addr in MapRelease(Rows(s.dst), a))
            && Rows(t.dst) == (if r.Some? then MapAcquire(MapRelease(Rows(s.dst), a), t.dst[r.value].addr)
                               else MapRelease(Rows(s.dst), a))
            && t.conns == s.conns - (if a in Rows(s.dst) then 1 else 0) + (if r.Some? then 1 else 0)
  {
    DisconnectWellFormed(s, cnf, a, true, now);
    DisconnectRefines(s, cnf, a, true, now);
    ChooseRefines(Disconnect(s, cnf, a, true, now).0, cnf, d);
  }

  /** The array with swap-with-last removal is the map operation, and the code
      reports an error exactly when asked to remove an unknown address. */
  lemma ChangeDstRefines(s: State, cnf: Config, c: Change)
    requires Inv(s, cnf)
    ensures var (t, r) := ChangeDst(s, cnf, c);
            && Inv(t, cnf) && Rows(t.dst) == MapChange(Rows(s.dst), c.addr, c.weight)
            && (r < 0 <==> c.weight < 0.0 && c.addr !in Rows(s.dst))
  {
    RowsAre(s.dst);
    var i := Index(s.dst, c.addr);
    if i == |s.dst| && c.weight < 0.0 {
    } else if i == |s.dst| {
      AppendedRefines(s, c);
      RefreshKeeps(Appended(s, c.addr, c.weight, c.probed, c.nowNs, c.junk), cnf, c.now);
    } else if c.weight < 0.0 {
      RemovedRefines(s, i);
      RefreshKeeps(Removed(s, i), cnf, c.now);
    } else if s.dst[i].weight != c.weight {
      ReweightedRefines(s, i, c.weight);
      RefreshKeeps(Reweighted(s, i, c.weight), cnf, c.now);
    }
  }

  /** A new destination takes the last row, with no connections, and is usable at
      once: it counts as never failed and as just checked. */
  lemma AddedIsUsable(s: State, cnf: Config, c: Change)
    requires Inv(s, cnf) && !Has(s.dst, c.addr) && c.weight >= EPS && c.now > RetryInterval(cnf)
    ensures var t := ChangeDst(s, cnf, c).0;
            && |t.dst| == |s.dst| + 1
            && var e := t.dst[|s.dst|];
               && e.addr == c.addr && e.weight == c.weight && e.conns == 0 && e.probed == c.probed
               && Good(e, EPS, t.ctx)
               && forall p: Probe :: p.started - c.nowNs < cnf.extra ==> CheckPasses(e, cnf.extra, p)
  {
    TopScanShape(UpdateCtx(Appended(s, c.addr, c.weight, c.probed, c.nowNs, c.junk), cnf, c.now), 0);
  }

  /** A change never adds connections, and re-weighting moves no row. */
  lemma ChangeDstTotal(s: State, cnf: Config, c: Change)
    requires WellFormed(s)
    ensures ChangeDst(s, cnf, c).0.conns <= s.conns
    ensures Has(s.dst, c.addr) && c.weight >= 0.0 ==> SameAddrs(s, ChangeDst(s, cnf, c).0)
  {
    var i := Index(s.dst, c.addr);
    if i == |s.dst| {
      TopScanShape(UpdateCtx(Appended(s, c.addr, c.weight, c.probed, c.nowNs, c.junk), cnf, c.now), 0);
    } else if c.weight < 0.0 {
      RemovedWellFormed(s, i);
      TopScanShape(UpdateCtx(Removed(s, i), cnf, c.now), 0);
    } else {
      TopScanShape(UpdateCtx(Reweighted(s, i, c.weight), cnf, c.now), 0);
    }
  }

  ghost predicate SameAddrs(s: State, t: State) {
    |t.dst| == |s.dst| && forall i :: 0 <= i < |s.dst| ==> t.dst[i].addr == s.dst[i].addr
  }

  lemma ChooseKeepsAddrs(s: State, cnf: Config, d: Draw)
    requires WellFormed(s)
    ensures SameAddrs(s, Choose(s, cnf, d).0)
  {
    PreparedWellFormed(s, cnf, d.now);
    PickKeeps(Prepared(s, cnf, d.now), cnf, d);
  }

  lemma DstFailedKeepsAddrs(s: State, cnf: Config, i: nat, now: int)
    requires WellFormed(s) && i < |s.dst|
    ensures SameAddrs(s, DstFailed(s, cnf, i, now))
  {
    var s1 := s.(ctx := s.ctx.(now := now, retry := RetryInterval(cnf)));
    var s2 := s1.(dst := s1.dst[i := s1.dst[i].(failed := now)]);
    TopScanShape(s2.(ctx := s2.ctx.(minWeight := EPS)), 0);
  }

  lemma DisconnectKeepsAddrs(s: State, cnf: Config, a: Addr, failed: bool, now: int)
    requires WellFormed(s) && MayDisconnect(s, a)
    ensures SameAddrs(s, Disconnect(s, cnf, a, failed, now).0)
  {
    var i := Index(s.dst, a);
    if i < |s.dst| {
      DstFailedKeepsAddrs(Released(s, i), cnf, i, now);
    }
  }

  // ------------------------------------------------------------ whole runs

  datatype Op =
    | DoChange(c: Change)
    | DoChoose(d: Draw)
    | DoDisconnect(a: Addr, failed: bool, now: int)
    | DoChooseAgain(a: Addr, now: int, d: Draw)

  /** Callers disconnect only what they connected. */
  ghost predicate Enabled(s: State, op: Op) {
    match op
    case DoDisconnect(a, _, _) => MayDisconnect(s, a)
    case DoChooseAgain(a, _, _) => MayDisconnect(s, a)
    case _ => true
  }

  ghost function Apply(s: State, cnf: Config, op: Op): State
    requires WellFormed(s) && Enabled(s, op)
  {
    match op
    case DoChange(c) => ChangeDst(s, cnf, c).0
    case DoChoose(d) => Choose(s, cnf, d).0
    case DoDisconnect(a, failed, now) => Disconnect(s, cnf, a, failed, now).0
    case DoChooseAgain(a, now, d) => ChooseAgain(s, cnf, a, now, d).0
  }

  /** The same operation on the abstract map; a choice may go to any address. */
  ghost predicate MapStep(m: map<Addr, Row>, op: Op, m': map<Addr, Row>) {
    match op
    case DoChange(c) => m' == MapChange(m, c.addr, c.weight)
    case DoChoose(_) => MapChoice(m, m')
    case DoDisconnect(a, _, _) => (a in m ==> m[a].conns > 0) && m' == MapRelease(m, a)
    case DoChooseAgain(a, _, _) => (a in m ==> m[a].conns > 0) && MapChoice(MapRelease(m, a), m')
  }

  ghost predicate MapChoice(m: map<Addr, Row>, m': map<Addr, Row>) {
    m' == m || exists a :: a in m && m' == MapAcquire(m, a)
  }

  ghost predicate IsRun(run: seq<State>, cnf: Config, ops: seq<Op>) {
    && |run| == |ops| + 1 && run[0] == Start
    && forall k :: 0 <= k < |ops| ==>
         WellFormed(run[k]) && Enabled(run[k], ops[k]) && run[k + 1] == Apply(run[k], cnf, ops[k])
  }

  lemma StepRefines(s: State, cnf: Config, op: Op)
    requires Inv(s, cnf) && Enabled(s, op)
    ensures Inv(Apply(s, cnf, op), cnf)
    ensures MapStep(Rows(s.dst), op, Rows(Apply(s, cnf, op).dst))
  {
    match op
    case DoChange(c) => ChangeDstRefines(s, cnf, c);
    case DoChoose(d) => ChooseRefines(s, cnf, d);
    case DoDisconnect(a, failed, now) => DisconnectRefines(s, cnf, a, failed, now);
    case DoChooseAgain(a, now, d) => ChooseAgainRefines(s, cnf, a, now, d);
  }

  /** In every run from the empty router, every state satisfies the invariant and
      every step is the corresponding map operation. */
  lemma {:induction false} RunRefines(run: seq<State>, cnf: Config, ops: seq<Op>)
    requires IsRun(run, cnf, ops)
    ensures forall k :: 0 <= k < |run| ==> Inv(run[k], cnf)
    ensures forall k :: 0 <= k < |ops| ==> MapStep(Rows(run[k].dst), ops[k], Rows(run[k + 1].dst))
  {
    for n := 0 to |ops|
      invariant forall k :: 0 <= k <= n ==> Inv(run[k], cnf)
      invariant forall k :: 0 <= k < n ==> MapStep(Rows(run[k].dst), ops[k], Rows(run[k + 1].dst))
    {
      StepRefines(run[n], cnf, ops[n]);
    }
  }
}
