/** The router under concurrency: connecting threads that hold a table pointer
    while the lock is released, the one thread that changes the table, the
    listener's admission test, and the pool that closes and redirects
    connections.  A critical section is one step, built from the router's own
    steps, so the invariant below covers every interleaving. */
module Concurrency {
  import opened RouterState
  import opened RouterInvariant

  type Id = nat   // a client connection

  /** Where a counted connection is. */
  datatype Phase =
    | Holding(row: nat, table: nat)   // in `router_connect_dst`, lock released, pointing into that table
    | Handoff   // address chosen, not yet taken over by the pool
    | Pooled

  datatype Owner = Owner(addr: Addr, phase: Phase)

  /** The thread that adds and removes destinations; `found` is the row it located, in
      `table`, before it began to wait. */
  datatype Changer =
    | Idle
    | Waiting(c: Change, found: Option<nat>, signalled: bool, table: nat)

  datatype System = System(
    router: State,
    table: nat,               // how often the table was reallocated: older pointers dangle
    busy: int,                // busy_count
    waits: int,               // wait_count
    changer: Changer,
    owners: map<Id, Owner>,
    gate: bool,               // the listener has passed the max_conn test
    lost: nat,                // redirected connections whose old address was gone
    surplus: map<Addr, int>)  // by how much a listed address's count exceeds its owners

  /** `limited`: connections come from one listener that tests `maxConn`. */
  datatype Limits = Limits(limited: bool, maxConn: int)

  datatype Event =
    | Admit
    | ChooseAsync(id: Id, d: Draw)
    | StartSync(id: Id, d: Draw)
    | SyncOk(id: Id)
    | SyncFail(id: Id, now: int, d: Draw)
    | Deliver(id: Id)
    | Disconnected(id: Id, failed: bool, now: int)
    | Redirect(id: Id, now: int, d: Draw)
    | Drop(ids: set<Id>)
    | Request(c: Change)
    | Wake

  const Initial: System := System(Start, 0, 0, 0, Idle, map[], false, 0, map[])

  // ------------------------------------------------------------------ steps

  ghost predicate Listed(s: System, a: Addr) {
    Has(s.router.dst, a)
  }

  ghost predicate Owned(s: System, a: Addr) {
    exists id :: id in s.owners && s.owners[id].addr == a
  }

  /** When the environment may take a step. */
  ghost predicate Guard(s: System, lim: Limits, e: Event) {
    match e
    case Admit => lim.limited && !s.gate && s.router.conns < lim.maxConn
    case ChooseAsync(id, _) => id !in s.owners && (lim.limited ==> s.gate)
    case StartSync(id, _) => id !in s.owners && (lim.limited ==> s.gate)
    case SyncOk(id) => id in s.owners && s.owners[id].phase.Holding?
    case SyncFail(id, _, _) => id in s.owners && s.owners[id].phase.Holding?
    case Deliver(id) => id in s.owners && s.owners[id].phase.Handoff?
    case Disconnected(id, _, _) => id in s.owners && !s.owners[id].phase.Holding?
    case Redirect(id, _, _) => id in s.owners && s.owners[id].phase.Pooled?
    case Drop(ids) => forall id :: id in ids ==> id in s.owners && s.owners[id].phase.Pooled?
    case Request(c) => s.changer.Idle?
    case Wake => s.changer.Waiting?
  }

  /** What the code relies on: held rows exist, and counts it lowers are positive
      (the assertions of `router_connect_dst` and `router_disconnect`; the two of
      `glb_router_choose_dst_again` are in `RedirectAssertions`). */
  ghost predicate Sound(s: System, e: Event) {
    && WellFormed(s.router)
    && match e
       case SyncOk(id) => HoldsRow(s, id)
       case SyncFail(id, _, _) => HoldsRow(s, id) && s.router.dst[s.owners[id].phase.row].conns > 0
       case Disconnected(id, _, _) => id in s.owners && MayDisconnect(s.router, s.owners[id].addr)
       case Redirect(id, _, _) => id in s.owners && MayDisconnect(s.router, s.owners[id].addr)
       case Wake =>
         s.changer.Waiting? && s.changer.table == s.table
         && (s.changer.found.Some? ==> s.changer.found.value < |s.router.dst|)
       case _ => true
  }

  ghost predicate HoldsRow(s: System, id: Id) {
    && id in s.owners && s.owners[id].phase.Holding?
    && s.owners[id].phase.table == s.table && s.owners[id].phase.row < |s.router.dst|
  }

  /** `if (0 == busy_count && 0 < wait_count) pthread_cond_signal`. */
  ghost function Signalled(s: System): System {
    if s.busy == 0 && s.waits > 0 && s.changer.Waiting? then s.(changer := s.changer.(signalled := true)) else s
  }

  /** A choice made for `id`, recorded as held or handed off. */
  ghost function Chosen(s: System, cnf: Config, id: Id, d: Draw, holding: bool): System
    requires WellFormed(s.router)
  {
    var (t, r) := Choose(s.router, cnf, d);
    if r.None? then s.(router := t)
    else
      var phase := if holding then Holding(r.value, s.table) else Handoff;
      s.(router := t, owners := s.owners[id := Owner(t.dst[r.value].addr, phase)])
  }

  /** Failed connect: undo the count and mark the row, through the held pointer. */
  ghost function Undone(s: System, cnf: Config, id: Id, now: int): System
    requires WellFormed(s.router) && HoldsRow(s, id) && s.router.dst[s.owners[id].phase.row].conns > 0
  {
    var row := s.owners[id].phase.row;
    s.(router := DstFailed(Released(s.router, row), cnf, row, now), owners := s.owners - {id})
  }

  /** Leave the connect loop. */
  ghost function Left(s: System): System {
    Signalled(s.(busy := s.busy - 1))
  }

  ghost function LetGo(s: System, cnf: Config, id: Id, failed: bool, now: int): System
    requires WellFormed(s.router) && id in s.owners && MayDisconnect(s.router, s.owners[id].addr)
  {
    s.(router := Disconnect(s.router, cnf, s.owners[id].addr, failed, now).0, owners := s.owners - {id})
  }

  /** Adding or removing waits while anyone is connecting; re-weighting does not. */
  ghost predicate MustWait(s: System, c: Change, found: Option<nat>) {
    Reallocates(c, found) && s.busy > 0
  }

  /** A removed address has no count; one that is added starts to count at zero, whoever
      owns it. */
  ghost function ChangedSurplus(surplus: map<Addr, int>, owners: map<Id, Owner>, c: Change,
                                found: Option<nat>): map<Addr, int> {
    if c.weight < 0.0 then surplus - {c.addr}
    else if found.None? then surplus[c.addr := -|OwnersOf(owners, c.addr)|]
    else surplus
  }

  /** Adding and removing reallocate the table. */
  predicate Reallocates(c: Change, found: Option<nat>) {
    found.None? || c.weight < 0.0
  }

  ghost function Changed(s: System, cnf: Config, c: Change, found: Option<nat>): System
    requires WellFormed(s.router) && (found.Some? ==> found.value < |s.router.dst|)
  {
    s.(router := ChangeFound(s.router, cnf, c, found).0, changer := Idle,
       table := s.table + (if Reallocates(c, found) then 1 else 0),
       surplus := ChangedSurplus(s.surplus, s.owners, c, found))
  }

  /** `glb_pool_drop_dst` and pool shutdown close connections without telling the
      router, so a listed address goes on counting them. */
  ghost function Dropped(s: System, ids: set<Id>): System {
    s.(owners := s.owners - ids,
       surplus := map b | b in Rows(s.router.dst) :: Surplus(s.surplus, b) + |OwnersOf(s.owners, b) * ids|)
  }

  ghost function Next(s: System, cnf: Config, lim: Limits, e: Event): System
    requires Guard(s, lim, e) && Sound(s, e)
  {
    match e
    case Admit => s.(gate := true)
    case ChooseAsync(id, d) => Chosen(s, cnf, id, d, false).(gate := false)
    case StartSync(id, d) =>
      var t := Chosen(s.(busy := s.busy + 1), cnf, id, d, true).(gate := false);
      if id in t.owners then t else Left(t)
    case SyncOk(id) =>
      var a := s.router.dst[s.owners[id].phase.row].addr;
      Left(s.(owners := s.owners[id := Owner(a, Handoff)]))
    case SyncFail(id, now, d) =>
      var u := Undone(s, cnf, id, now);
      DstFailedWellFormed(Released(s.router, s.owners[id].phase.row), cnf, s.owners[id].phase.row, now);
      var t := Chosen(u, cnf, id, d, true);
      if id in t.owners then t else Left(t)
    case Deliver(id) => s.(owners := s.owners[id := s.owners[id].(phase := Pooled)])
    case Disconnected(id, failed, now) => LetGo(s, cnf, id, failed, now)
    case Redirect(id, now, d) =>
      DisconnectWellFormed(s.router, cnf, s.owners[id].addr, true, now);
      var t := Chosen(LetGo(s, cnf, id, true, now), cnf, id, d, false);
      if id in t.owners
      then t.(owners := t.owners[id := t.owners[id].(phase := Pooled)],
              lost := s.lost + LostBy(s, id))
      else t
    case Drop(ids) => Dropped(s, ids)
    case Request(c) =>
      var found := Found(s.router, c.addr);
      if found.None? && c.weight < 0.0 then s
      else if MustWait(s, c, found) then s.(waits := s.waits + 1, changer := Waiting(c, found, false, s.table))
      else Changed(s, cnf, c, found)
    case Wake =>
      if s.busy > 0 then s.(changer := s.changer.(signalled := false))
      else Changed(s.(waits := s.waits - 1), cnf, s.changer.c, s.changer.found)
  }

  // -------------------------------------------------------------- invariant

  ghost function OwnersOf(owners: map<Id, Owner>, a: Addr): set<Id> {
    set id | id in owners && owners[id].addr == a
  }

  ghost function Holders(owners: map<Id, Owner>): set<Id> {
    set id | id in owners && owners[id].phase.Holding?
  }

  ghost function Surplus(surplus: map<Addr, int>, a: Addr): int {
    if a in surplus then surplus[a] else 0
  }

  /** Every listed destination counts the connections that own it, and the surplus:
      more by those dropped while it was listed, less by those that owned it when it
      was added. */
  ghost predicate Counted(m: map<Addr, Row>, owners: map<Id, Owner>, surplus: map<Addr, int>) {
    && (forall a :: a in m ==> m[a].conns == |OwnersOf(owners, a)| + Surplus(surplus, a))
    && (forall a :: a in surplus ==> a in m)
  }

  /** The same with no surplus: exactly the connections that own it. */
  ghost predicate Exact(m: map<Addr, Row>, owners: map<Id, Owner>) {
    forall a :: a in m ==> m[a].conns == |OwnersOf(owners, a)|
  }

  /** Every held pointer points into the current table and names the address that was
      chosen. */
  ghost predicate Held(r: State, table: nat, owners: map<Id, Owner>) {
    forall id :: id in owners && owners[id].phase.Holding? ==>
      && owners[id].phase.table == table
      && owners[id].phase.row < |r.dst| && r.dst[owners[id].phase.row].addr == owners[id].addr
  }

  /** The waiting changer's row is still right, and nobody needs to wake it who
      is not going to. */
  ghost predicate ChangerOk(s: System) {
    match s.changer
    case Idle => s.waits == 0
    case Waiting(c, found, signalled, table) =>
      && s.waits == 1 && found == Found(s.router, c.addr) && table == s.table
      && (found.Some? ==> c.weight < 0.0) && (found.None? ==> c.weight >= 0.0)
      && (!signalled ==> s.busy > 0)
  }

  function Max(a: int, b: int): int { if a < b then b else a }

  ghost predicate WithinLimit(s: System, lim: Limits) {
    lim.limited ==> s.router.conns + (if s.gate then 1 else 0) <= Max(0, lim.maxConn) + s.lost
  }

  ghost predicate SysInv(s: System, cnf: Config, lim: Limits) {
    && Inv(s.router, cnf)
    && Counted(Rows(s.router.dst), s.owners, s.surplus)
    && Held(s.router, s.table, s.owners)
    && s.busy == |Holders(s.owners)|
    && ChangerOk(s)
    && WithinLimit(s, lim)
  }

  // ------------------------------------------------- counting the owners

  lemma OwnersAfterGain(owners: map<Id, Owner>, id: Id, o: Owner, b: Addr)
    requires id !in owners
    ensures |OwnersOf(owners[id := o], b)| == |OwnersOf(owners, b)| + (if b == o.addr then 1 else 0)
  {
    if b == o.addr {
      assert OwnersOf(owners[id := o], b) == OwnersOf(owners, b) + {id};
    } else {
      assert OwnersOf(owners[id := o], b) == OwnersOf(owners, b);
    }
  }

  lemma OwnersAfterLoss(owners: map<Id, Owner>, id: Id, b: Addr)
    requires id in owners
    ensures |OwnersOf(owners - {id}, b)| == |OwnersOf(owners, b)| - (if b == owners[id].addr then 1 else 0)
  {
    if b == owners[id].addr {
      assert id in OwnersOf(owners, b);
      assert OwnersOf(owners - {id}, b) == OwnersOf(owners, b) - {id};
    } else {
      assert OwnersOf(owners - {id}, b) == OwnersOf(owners, b);
    }
  }

  lemma Gain(m: map<Addr, Row>, owners: map<Id, Owner>, surplus: map<Addr, int>, id: Id, a: Addr, phase: Phase)
    requires Counted(m, owners, surplus) && id !in owners && a in m
    ensures Counted(MapAcquire(m, a), owners[id := Owner(a, phase)], surplus)
  {
    forall b | b in m
      ensures MapAcquire(m, a)[b].conns == |OwnersOf(owners[id := Owner(a, phase)], b)| + Surplus(surplus, b)
    {
      OwnersAfterGain(owners, id, Owner(a, phase), b);
    }
  }

  lemma Lose(m: map<Addr, Row>, owners: map<Id, Owner>, surplus: map<Addr, int>, id: Id)
    requires Counted(m, owners, surplus) && id in owners
    requires owners[id].addr in m ==> m[owners[id].addr].conns > 0
    ensures Counted(MapRelease(m, owners[id].addr), owners - {id}, surplus)
  {
    var a := owners[id].addr;
    OwnersAfterLoss(owners, id, a);
    forall b | b in m
      ensures MapRelease(m, a)[b].conns == |OwnersOf(owners - {id}, b)| + Surplus(surplus, b)
    {
      OwnersAfterLoss(owners, id, b);
    }
  }

  /** The address whose count an event lowers. */
  ghost function Lowered(s: System, e: Event): Option<Addr> {
    match e
    case SyncFail(id, _, _) => if id in s.owners then Some(s.owners[id].addr) else None
    case Disconnected(id, _, _) => if id in s.owners then Some(s.owners[id].addr) else None
    case Redirect(id, _, _) => if id in s.owners then Some(s.owners[id].addr) else None
    case _ => None
  }

  /** The event lowers a count that those who owned the address when it was added, and
      were not counted, have used up. */
  ghost predicate Overdrawn(s: System, e: Event) {
    && Lowered(s, e).Some? && Listed(s, Lowered(s, e).value)
    && |OwnersOf(s.owners, Lowered(s, e).value)| + Surplus(s.surplus, Lowered(s, e).value) <= 0
  }

  /** The code's assertions hold before a step if and only if it overdraws no count. */
  lemma SoundCondition(s: System, cnf: Config, lim: Limits, e: Event)
    requires SysInv(s, cnf, lim) && Guard(s, lim, e)
    ensures Sound(s, e) <==> !Overdrawn(s, e)
  {
    RowsAre(s.router.dst);
    match e
    case SyncFail(id, _, _) => IndexOf(s.router.dst, s.owners[id].phase.row);
    case _ =>
  }

  ghost predicate NoDeficit(s: System) {
    forall a :: Surplus(s.surplus, a) >= 0
  }

  /** So they hold before every step while no count is short. */
  lemma InvIsSound(s: System, cnf: Config, lim: Limits, e: Event)
    requires SysInv(s, cnf, lim) && Guard(s, lim, e) && NoDeficit(s)
    ensures Sound(s, e)
  {
    SoundCondition(s, cnf, lim, e);
    if Lowered(s, e).Some? {
      assert e.id in OwnersOf(s.owners, Lowered(s, e).value);
      assert OwnersOf(s.owners, Lowered(s, e).value) != {};
    }
  }

  // ------------------------------------------------------ building blocks

  /** The part of the invariant about routers and owners alone. */
  ghost predicate Booked(s: System, cnf: Config) {
    Inv(s.router, cnf) && Counted(Rows(s.router.dst), s.owners, s.surplus) && Held(s.router, s.table, s.owners)
  }

  /** The outcome of a choice for `id`: one more connection, or none. */
  ghost predicate ChoiceMade(s: System, t: System, cnf: Config, id: Id, holding: bool) {
    && t == s.(router := t.router, owners := t.owners)
    && Booked(t, cnf) && SameAddrs(s.router, t.router)
    && t.router.conns == s.router.conns + (if id in t.owners then 1 else 0)
    && (if id in t.owners
        then && t.owners == s.owners[id := t.owners[id]]
             && (if holding then t.owners[id].phase.Holding? else t.owners[id].phase.Handoff?)
        else t.owners == s.owners)
  }

  lemma ChosenCounted(s: System, cnf: Config, id: Id, d: Draw, holding: bool)
    requires Booked(s, cnf) && id !in s.owners
    ensures var t := Chosen(s, cnf, id, d, holding);
            Inv(t.router, cnf) && Counted(Rows(t.router.dst), t.owners, t.surplus)
            && t.router.conns == s.router.conns + (if id in t.owners then 1 else 0)
  {
    ChooseRefines(s.router, cnf, d);
    var (t, r) := Choose(s.router, cnf, d);
    if r.Some? {
      var phase := if holding then Holding(r.value, s.table) else Handoff;
      Gain(Rows(s.router.dst), s.owners, s.surplus, id, t.dst[r.value].addr, phase);
    }
  }

  lemma ChosenHeld(s: System, cnf: Config, id: Id, d: Draw, holding: bool)
    requires WellFormed(s.router) && Held(s.router, s.table, s.owners) && id !in s.owners
    ensures var t := Chosen(s, cnf, id, d, holding); Held(t.router, t.table, t.owners) && SameAddrs(s.router, t.router)
  {
    ChooseKeepsAddrs(s.router, cnf, d);
  }

  lemma ChosenBooked(s: System, cnf: Config, id: Id, d: Draw, holding: bool)
    requires Booked(s, cnf) && id !in s.owners
    ensures ChoiceMade(s, Chosen(s, cnf, id, d, holding), cnf, id, holding)
  {
    ChosenCounted(s, cnf, id, d, holding);
    ChosenHeld(s, cnf, id, d, holding);
  }

  ghost predicate ReleaseMade(s: System, t: System, cnf: Config, id: Id) {
    && id in s.owners
    && t == s.(router := t.router, owners := s.owners - {id})
    && Booked(t, cnf) && SameAddrs(s.router, t.router)
    && t.router.conns == s.router.conns - (if Listed(s, s.owners[id].addr) then 1 else 0)
  }

  lemma ReleasedBooked(s: System, cnf: Config, id: Id, failed: bool, now: int)
    requires Booked(s, cnf) && id in s.owners && MayDisconnect(s.router, s.owners[id].addr)
    ensures ReleaseMade(s, LetGo(s, cnf, id, failed, now), cnf, id)
  {
    DisconnectRefines(s.router, cnf, s.owners[id].addr, failed, now);
    RowsAre(s.router.dst);
    Lose(Rows(s.router.dst), s.owners, s.surplus, id);
    LetGoHeld(s, cnf, id, failed, now);
  }

  lemma LetGoHeld(s: System, cnf: Config, id: Id, failed: bool, now: int)
    requires WellFormed(s.router) && Held(s.router, s.table, s.owners) && id in s.owners
    requires MayDisconnect(s.router, s.owners[id].addr)
    ensures var t := LetGo(s, cnf, id, failed, now); Held(t.router, t.table, t.owners) && SameAddrs(s.router, t.router)
  {
    DisconnectKeepsAddrs(s.router, cnf, s.owners[id].addr, failed, now);
  }

  /** Undoing through the held pointer is disconnecting from the chosen address. */
  lemma UndoneIsReleased(s: System, cnf: Config, id: Id, now: int)
    requires Booked(s, cnf) && HoldsRow(s, id) && s.router.dst[s.owners[id].phase.row].conns > 0
    ensures MayDisconnect(s.router, s.owners[id].addr) && Listed(s, s.owners[id].addr)
    ensures Undone(s, cnf, id, now) == LetGo(s, cnf, id, true, now)
  {
    IndexOf(s.router.dst, s.owners[id].phase.row);
  }

  lemma SameFound(s: State, t: State, a: Addr)
    requires SameAddrs(s, t)
    ensures Found(s, a) == Found(t, a)
  {
    SameIndex(s.dst, t.dst, a);
  }

  /** Holders after one connection enters, leaves or stays out of the loop. */
  lemma HoldersUpdate(owners: map<Id, Owner>, id: Id, o: Owner)
    ensures Holders(owners[id := o]) == Holders(owners) - {id} + (if o.phase.Holding? then {id} else {})
    ensures Holders(owners - {id}) == Holders(owners) - {id}
  {
  }

  lemma LeftKeepsChanger(s: System)
    requires s.busy > 0 && ChangerOk(s)
    ensures ChangerOk(Left(s)) && Left(s).router == s.router && Left(s).owners == s.owners
    ensures Left(s).busy == s.busy - 1 && Left(s).gate == s.gate
    ensures Left(s).lost == s.lost && Left(s).surplus == s.surplus && Left(s).table == s.table
  {
  }

  // ------------------------------------------------------ one lemma an event

  lemma ChooseAsyncKeeps(s: System, cnf: Config, lim: Limits, id: Id, d: Draw)
    requires SysInv(s, cnf, lim) && Guard(s, lim, ChooseAsync(id, d))
    ensures SysInv(Next(s, cnf, lim, ChooseAsync(id, d)), cnf, lim)
  {
    ChosenBooked(s, cnf, id, d, false);
    AfterAsync(s, Chosen(s, cnf, id, d, false), cnf, lim, id);
  }

  lemma AfterAsync(s: System, t: System, cnf: Config, lim: Limits, id: Id)
    requires SysInv(s, cnf, lim) && ChoiceMade(s, t, cnf, id, false)
    requires id !in s.owners && (lim.limited ==> s.gate)
    ensures SysInv(t.(gate := false), cnf, lim)
  {
    HoldersAfterChoice(s, t, cnf, id, false);
    ChangerStays(s, t);
  }

  lemma HoldersAfterChoice(s: System, t: System, cnf: Config, id: Id, holding: bool)
    requires ChoiceMade(s, t, cnf, id, holding) && id !in s.owners
    ensures |Holders(t.owners)| == |Holders(s.owners)| + (if holding && id in t.owners then 1 else 0)
  {
    if id in t.owners {
      HoldersGain(s.owners, id, t.owners[id]);
    }
  }

  lemma HoldersGain(owners: map<Id, Owner>, id: Id, o: Owner)
    requires id !in owners
    ensures |Holders(owners[id := o])| == |Holders(owners)| + (if o.phase.Holding? then 1 else 0)
  {
    HoldersUpdate(owners, id, o);
    assert id !in Holders(owners);
    assert Holders(owners) - {id} == Holders(owners);
  }

  lemma ChangerStays(s: System, t: System)
    requires ChangerOk(s) && SameAddrs(s.router, t.router)
    requires t.changer == s.changer && t.waits == s.waits && t.busy >= s.busy && t.table == s.table
    ensures ChangerOk(t)
  {
    if s.changer.Waiting? {
      SameFound(s.router, t.router, s.changer.c.addr);
    }
  }

  lemma StartSyncKeeps(s: System, cnf: Config, lim: Limits, id: Id, d: Draw)
    requires SysInv(s, cnf, lim) && Guard(s, lim, StartSync(id, d))
    ensures SysInv(Next(s, cnf, lim, StartSync(id, d)), cnf, lim)
  {
    var s1 := s.(busy := s.busy + 1);
    ChosenBooked(s1, cnf, id, d, true);
    AfterStart(s, Chosen(s1, cnf, id, d, true), cnf, lim, id);
  }

  lemma AfterStart(s: System, t: System, cnf: Config, lim: Limits, id: Id)
    requires SysInv(s, cnf, lim) && ChoiceMade(s.(busy := s.busy + 1), t, cnf, id, true)
    requires id !in s.owners && (lim.limited ==> s.gate)
    ensures var u := t.(gate := false); SysInv(if id in u.owners then u else Left(u), cnf, lim)
  {
    var u := t.(gate := false);
    HoldersAfterChoice(s.(busy := s.busy + 1), t, cnf, id, true);
    ChangerStays(s, u);
    if id !in u.owners {
      LeftKeepsChanger(u);
    }
  }

  lemma SyncOkKeeps(s: System, cnf: Config, lim: Limits, id: Id)
    requires SysInv(s, cnf, lim) && Guard(s, lim, SyncOk(id))
    ensures Sound(s, SyncOk(id)) && SysInv(Next(s, cnf, lim, SyncOk(id)), cnf, lim)
    ensures Next(s, cnf, lim, SyncOk(id)).owners == s.owners[id := Owner(s.owners[id].addr, Handoff)]
  {
    var owners := s.owners[id := Owner(s.owners[id].addr, Handoff)];
    HandedOff(s.router, s.table, s.owners, id);
    SameOwners(s.owners, owners);
    CountedSame(Rows(s.router.dst), s.owners, owners, s.surplus);
    LeftKeepsChanger(s.(owners := owners));
  }

  lemma HandedOff(r: State, table: nat, owners: map<Id, Owner>, id: Id)
    requires Held(r, table, owners) && id in owners && owners[id].phase.Holding?
    ensures var p := owners[id := Owner(owners[id].addr, Handoff)];
            Held(r, table, p) && |Holders(p)| == |Holders(owners)| - 1
  {
    HoldersUpdate(owners, id, Owner(owners[id].addr, Handoff));
    assert id in Holders(owners);
  }

  /** Only phases differ. */
  lemma SameOwners(o: map<Id, Owner>, p: map<Id, Owner>)
    requires o.Keys == p.Keys && forall id :: id in o ==> o[id].addr == p[id].addr
    ensures forall a :: OwnersOf(o, a) == OwnersOf(p, a)
  {
  }

  lemma SyncFailKeeps(s: System, cnf: Config, lim: Limits, id: Id, now: int, d: Draw)
    requires SysInv(s, cnf, lim) && Guard(s, lim, SyncFail(id, now, d)) && Sound(s, SyncFail(id, now, d))
    ensures SysInv(Next(s, cnf, lim, SyncFail(id, now, d)), cnf, lim)
  {
    var u := Undone(s, cnf, id, now);
    UndoneIsReleased(s, cnf, id, now);
    ReleasedBooked(s, cnf, id, true, now);
    ChosenBooked(u, cnf, id, d, true);
    AfterFailure(s, u, Chosen(u, cnf, id, d, true), cnf, lim, id);
  }

  lemma AfterFailure(s: System, u: System, t: System, cnf: Config, lim: Limits, id: Id)
    requires SysInv(s, cnf, lim) && id in s.owners && s.owners[id].phase.Holding?
    requires Listed(s, s.owners[id].addr)
    requires ReleaseMade(s, u, cnf, id) && ChoiceMade(u, t, cnf, id, true)
    ensures SysInv(if id in t.owners then t else Left(t), cnf, lim)
  {
    HoldersUpdate(s.owners, id, s.owners[id]);
    assert id in Holders(s.owners);
    HoldersAfterChoice(u, t, cnf, id, true);
    ChangerStays(s, u);
    ChangerStays(u, t);
    if id !in t.owners {
      LeftKeepsChanger(t);
    }
  }

  lemma DeliverKeeps(s: System, cnf: Config, lim: Limits, id: Id)
    requires SysInv(s, cnf, lim) && Guard(s, lim, Deliver(id))
    ensures SysInv(Next(s, cnf, lim, Deliver(id)), cnf, lim)
  {
    PooledOwners(Rows(s.router.dst), s.owners, s.surplus, id);
  }

  lemma PooledOwners(m: map<Addr, Row>, owners: map<Id, Owner>, surplus: map<Addr, int>, id: Id)
    requires Counted(m, owners, surplus) && id in owners && owners[id].phase.Handoff?
    ensures var p := owners[id := owners[id].(phase := Pooled)];
            Counted(m, p, surplus) && |Holders(p)| == |Holders(owners)|
  {
    var p := owners[id := owners[id].(phase := Pooled)];
    assert Holders(p) == Holders(owners);
    SameOwners(owners, p);
    CountedSame(m, owners, p, surplus);
  }

  lemma CountedSame(m: map<Addr, Row>, o: map<Id, Owner>, p: map<Id, Owner>, surplus: map<Addr, int>)
    requires Counted(m, o, surplus) && forall a :: OwnersOf(o, a) == OwnersOf(p, a)
    ensures Counted(m, p, surplus)
  {
  }

  lemma DisconnectedKeeps(s: System, cnf: Config, lim: Limits, id: Id, failed: bool, now: int)
    requires SysInv(s, cnf, lim) && Guard(s, lim, Disconnected(id, failed, now))
    requires Sound(s, Disconnected(id, failed, now))
    ensures SysInv(Next(s, cnf, lim, Disconnected(id, failed, now)), cnf, lim)
  {
    ReleasedBooked(s, cnf, id, failed, now);
    HoldersWithout(s.owners, id);
    if s.changer.Waiting? {
      SameFound(s.router, LetGo(s, cnf, id, failed, now).router, s.changer.c.addr);
    }
  }

  lemma RedirectKeeps(s: System, cnf: Config, lim: Limits, id: Id, now: int, d: Draw)
    requires SysInv(s, cnf, lim) && Guard(s, lim, Redirect(id, now, d)) && Sound(s, Redirect(id, now, d))
    ensures SysInv(Next(s, cnf, lim, Redirect(id, now, d)), cnf, lim)
  {
    var u := LetGo(s, cnf, id, true, now);
    ReleasedBooked(s, cnf, id, true, now);
    ChosenBooked(u, cnf, id, d, false);
    var t := Chosen(u, cnf, id, d, false);
    AfterRedirect(s, u, t, cnf, lim, id);
    if id in t.owners {
      DeliverKeeps(t.(lost := s.lost + LostBy(s, id)), cnf, lim, id);
    }
  }

  ghost function LostBy(s: System, id: Id): nat
    requires id in s.owners
  {
    if Listed(s, s.owners[id].addr) then 0 else 1
  }

  lemma AfterRedirect(s: System, u: System, t: System, cnf: Config, lim: Limits, id: Id)
    requires SysInv(s, cnf, lim) && id in s.owners && s.owners[id].phase.Pooled?
    requires ReleaseMade(s, u, cnf, id) && ChoiceMade(u, t, cnf, id, false)
    ensures SysInv(if id in t.owners then t.(lost := s.lost + LostBy(s, id)) else t, cnf, lim)
  {
    HoldersWithout(s.owners, id);
    HoldersAfterChoice(u, t, cnf, id, false);
    ChangerStays(s, u);
    ChangerStays(u, t);
  }

  lemma HoldersWithout(owners: map<Id, Owner>, id: Id)
    requires id in owners && !owners[id].phase.Holding?
    ensures Holders(owners - {id}) == Holders(owners)
  {
  }

  /** Each address loses its dropped owners and gains as much surplus. */
  lemma OwnersAfterDrop(owners: map<Id, Owner>, ids: set<Id>, b: Addr)
    ensures |OwnersOf(owners - ids, b)| + |OwnersOf(owners, b) * ids| == |OwnersOf(owners, b)|
  {
    var o := OwnersOf(owners, b);
    assert OwnersOf(owners - ids, b) == o - ids;
    assert o == (o - ids) + (o * ids);
  }

  lemma DropKeeps(s: System, cnf: Config, lim: Limits, ids: set<Id>)
    requires SysInv(s, cnf, lim) && Guard(s, lim, Drop(ids))
    ensures SysInv(Dropped(s, ids), cnf, lim)
  {
    var t := Dropped(s, ids);
    assert Holders(t.owners) == Holders(s.owners);
    forall b | b in Rows(s.router.dst)
      ensures Rows(s.router.dst)[b].conns == |OwnersOf(t.owners, b)| + Surplus(t.surplus, b)
    {
      OwnersAfterDrop(s.owners, ids, b);
    }
  }

  lemma ChangedKeeps(s: System, cnf: Config, lim: Limits, c: Change)
    requires Booked(s, cnf) && s.busy == |Holders(s.owners)| && WithinLimit(s, lim)
    requires !MustWait(s, c, Found(s.router, c.addr)) && s.waits == 0
    ensures SysInv(Changed(s, cnf, c, Found(s.router, c.addr)), cnf, lim)
  {
    ChangedCounted(s, cnf, c);
    ChangeDstTotal(s.router, cnf, c);
    if s.busy == 0 {
      assert forall id :: id in s.owners && s.owners[id].phase.Holding? ==> id in Holders(s.owners);
    }
  }

  lemma ChangedCounted(s: System, cnf: Config, c: Change)
    requires Booked(s, cnf)
    ensures var t := Changed(s, cnf, c, Found(s.router, c.addr));
            Inv(t.router, cnf) && Counted(Rows(t.router.dst), t.owners, t.surplus)
  {
    ChangeDstRefines(s.router, cnf, c);
    RowsAre(s.router.dst);
    MapChangeCounted(Rows(s.router.dst), s.owners, s.surplus, c, Found(s.router, c.addr));
  }

  lemma MapChangeCounted(m: map<Addr, Row>, owners: map<Id, Owner>, surplus: map<Addr, int>, c: Change,
                         found: Option<nat>)
    requires Counted(m, owners, surplus) && (found.Some? <==> c.addr in m)
    ensures Counted(MapChange(m, c.addr, c.weight), owners, ChangedSurplus(surplus, owners, c, found))
  {
  }

  lemma RequestKeeps(s: System, cnf: Config, lim: Limits, c: Change)
    requires SysInv(s, cnf, lim) && Guard(s, lim, Request(c))
    ensures SysInv(Next(s, cnf, lim, Request(c)), cnf, lim)
  {
    var found := Found(s.router, c.addr);
    if !MustWait(s, c, found) && (found.Some? || c.weight >= 0.0) {
      ChangedKeeps(s, cnf, lim, c);
    }
  }

  lemma WakeKeeps(s: System, cnf: Config, lim: Limits)
    requires SysInv(s, cnf, lim) && Guard(s, lim, Wake) && Sound(s, Wake)
    ensures SysInv(Next(s, cnf, lim, Wake), cnf, lim)
  {
    if s.busy == 0 {
      ChangedKeeps(s.(waits := s.waits - 1), cnf, lim, s.changer.c);
    }
  }

  /** Every step of every thread before which the code's assertions hold keeps the
      invariant. */
  lemma StepKeeps(s: System, cnf: Config, lim: Limits, e: Event)
    requires SysInv(s, cnf, lim) && Guard(s, lim, e) && Sound(s, e)
    ensures SysInv(Next(s, cnf, lim, e), cnf, lim)
  {
    match e
    case Admit =>
    case ChooseAsync(id, d) => ChooseAsyncKeeps(s, cnf, lim, id, d);
    case StartSync(id, d) => StartSyncKeeps(s, cnf, lim, id, d);
    case SyncOk(id) => SyncOkKeeps(s, cnf, lim, id);
    case SyncFail(id, now, d) => SyncFailKeeps(s, cnf, lim, id, now, d);
    case Deliver(id) => DeliverKeeps(s, cnf, lim, id);
    case Disconnected(id, failed, now) => DisconnectedKeeps(s, cnf, lim, id, failed, now);
    case Redirect(id, now, d) => RedirectKeeps(s, cnf, lim, id, now, d);
    case Drop(ids) => DropKeeps(s, cnf, lim, ids);
    case Request(c) => RequestKeeps(s, cnf, lim, c);
    case Wake => WakeKeeps(s, cnf, lim);
  }

  // ------------------------------------------------------------- whole runs

  ghost predicate Stepped(s: System, t: System, cnf: Config, lim: Limits, e: Event) {
    Guard(s, lim, e) && (Sound(s, e) ==> t == Next(s, cnf, lim, e))
  }

  /** Any interleaving: each step is one the environment may take, and is what the
      code does wherever the code's own assertions hold. */
  ghost predicate IsRun(run: seq<System>, cnf: Config, lim: Limits, events: seq<Event>) {
    && |run| == |events| + 1 && run[0] == Initial
    && forall k {:trigger events[k]} :: 0 <= k < |events| ==> Stepped(run[k], run[k + 1], cnf, lim, events[k])
  }

  /** The code's assertions have held up to state `k`. */
  ghost predicate SoundTo(run: seq<System>, events: seq<Event>, k: nat) {
    forall j {:trigger events[j]} :: 0 <= j < k && j < |run| && j < |events| ==> Sound(run[j], events[j])
  }

  lemma InitialInv(cnf: Config, lim: Limits)
    ensures SysInv(Initial, cnf, lim)
  {
    assert Rows(Start.dst) == map[] && Holders(map[]) == {};
  }

  lemma {:induction false} RunKeeps(run: seq<System>, cnf: Config, lim: Limits, events: seq<Event>, k: nat)
    requires IsRun(run, cnf, lim, events) && k < |run| && SoundTo(run, events, k)
    ensures SysInv(run[k], cnf, lim)
  {
    if k == 0 {
      InitialInv(cnf, lim);
    } else {
      RunKeeps(run, cnf, lim, events, k - 1);
      assert Sound(run[k - 1], events[k - 1]);
      StepKeeps(run[k - 1], cnf, lim, events[k - 1]);
    }
  }

  /** The code's assertions hold throughout a run if and only if no step overdraws a
      count. */
  lemma {:induction false} SoundRuns(run: seq<System>, cnf: Config, lim: Limits, events: seq<Event>, k: nat)
    requires IsRun(run, cnf, lim, events) && k <= |events|
    ensures SoundTo(run, events, k) <==> forall j {:trigger events[j]} :: 0 <= j < k ==> !Overdrawn(run[j], events[j])
  {
    if k > 0 {
      SoundRuns(run, cnf, lim, events, k - 1);
      if SoundTo(run, events, k - 1) {
        RunKeeps(run, cnf, lim, events, k - 1);
        SoundCondition(run[k - 1], cnf, lim, events[k - 1]);
      }
    }
  }

  /** Pointer stability: whatever happened while its lock was released, a connecting
      thread points into the table as it is now, at a row that still holds the address it
      chose. */
  lemma HeldPointerIsStable(run: seq<System>, cnf: Config, lim: Limits, events: seq<Event>, k: nat, id: Id)
    requires IsRun(run, cnf, lim, events) && k < |run| && SoundTo(run, events, k)
    requires id in run[k].owners && run[k].owners[id].phase.Holding?
    ensures run[k].owners[id].phase.table == run[k].table && run[k].owners[id].phase.row < |run[k].router.dst|
    ensures run[k].router.dst[run[k].owners[id].phase.row].addr == run[k].owners[id].addr
  {
    RunKeeps(run, cnf, lim, events, k);
  }

  /** What an event does to the router while someone is connecting: at most one of the
      router's operations, and a change only if it re-weights. */
  ghost function OpsOf(s: System, e: Event): seq<Op> {
    match e
    case ChooseAsync(_, d) => [DoChoose(d)]
    case StartSync(_, d) => [DoChoose(d)]
    case SyncFail(id, now, d) => if id in s.owners then [DoChooseAgain(s.owners[id].addr, now, d)] else []
    case Disconnected(id, failed, now) => if id in s.owners then [DoDisconnect(s.owners[id].addr, failed, now)] else []
    case Redirect(id, now, d) => if id in s.owners then [DoChooseAgain(s.owners[id].addr, now, d)] else []
    case Request(c) => if Listed(s, c.addr) && c.weight >= 0.0 then [DoChange(c)] else []
    case _ => []
  }

  /** The step from `s` to `t` is `ops` on the router, and leaves the table where it is. */
  ghost predicate Performs(s: System, t: System, cnf: Config, ops: seq<Op>) {
    && t.table == s.table && |ops| <= 1
    && (ops == [] ==> t.router == s.router)
    && (ops != [] ==> WellFormed(s.router) && Enabled(s.router, ops[0]) && t.router == Apply(s.router, cnf, ops[0]))
  }

  /** A choice for a connection is a choice by the router. */
  lemma ChosenIsChoose(s: System, cnf: Config, id: Id, d: Draw, holding: bool)
    requires WellFormed(s.router)
    ensures var t := Chosen(s, cnf, id, d, holding); t.router == Choose(s.router, cnf, d).0 && t.table == s.table
    ensures Left(Chosen(s, cnf, id, d, holding)).router == Choose(s.router, cnf, d).0
    ensures Left(Chosen(s, cnf, id, d, holding)).table == s.table
  {
  }

  lemma AsyncPerforms(s: System, cnf: Config, lim: Limits, id: Id, d: Draw)
    requires WellFormed(s.router) && Guard(s, lim, ChooseAsync(id, d))
    ensures Performs(s, Next(s, cnf, lim, ChooseAsync(id, d)), cnf, [DoChoose(d)])
  {
    ChosenIsChoose(s, cnf, id, d, false);
  }

  lemma StartPerforms(s: System, cnf: Config, lim: Limits, id: Id, d: Draw)
    requires WellFormed(s.router) && Guard(s, lim, StartSync(id, d))
    ensures Performs(s, Next(s, cnf, lim, StartSync(id, d)), cnf, [DoChoose(d)])
  {
    ChosenIsChoose(s.(busy := s.busy + 1), cnf, id, d, true);
  }

  lemma SyncFailPerforms(s: System, cnf: Config, lim: Limits, e: Event)
    requires SysInv(s, cnf, lim) && Guard(s, lim, e) && Sound(s, e) && e.SyncFail?
    ensures Performs(s, Next(s, cnf, lim, e), cnf, OpsOf(s, e))
  {
    UndoneIsReleased(s, cnf, e.id, e.now);
    DisconnectWellFormed(s.router, cnf, s.owners[e.id].addr, true, e.now);
    assert Chosen(Undone(s, cnf, e.id, e.now), cnf, e.id, e.d, true).router
        == ChooseAgain(s.router, cnf, s.owners[e.id].addr, e.now, e.d).0;
  }

  lemma RedirectPerforms(s: System, cnf: Config, lim: Limits, e: Event)
    requires SysInv(s, cnf, lim) && Guard(s, lim, e) && Sound(s, e) && e.Redirect?
    ensures Performs(s, Next(s, cnf, lim, e), cnf, OpsOf(s, e))
  {
    DisconnectWellFormed(s.router, cnf, s.owners[e.id].addr, true, e.now);
  }

  lemma StepPerforms(s: System, cnf: Config, lim: Limits, e: Event)
    requires SysInv(s, cnf, lim) && Guard(s, lim, e) && Sound(s, e) && (e.Request? || e.Wake? ==> s.busy > 0)
    ensures Performs(s, Next(s, cnf, lim, e), cnf, OpsOf(s, e))
  {
    match e
    case ChooseAsync(id, d) => AsyncPerforms(s, cnf, lim, id, d);
    case StartSync(id, d) => StartPerforms(s, cnf, lim, id, d);
    case SyncFail(_, _, _) => SyncFailPerforms(s, cnf, lim, e);
    case Redirect(_, _, _) => RedirectPerforms(s, cnf, lim, e);
    case _ =>
  }

  /** Operations that reallocate nothing keep every row in its place. */
  lemma OpKeepsAddrs(r: State, cnf: Config, op: Op)
    requires WellFormed(r) && Enabled(r, op) && (op.DoChange? ==> Has(r.dst, op.c.addr) && op.c.weight >= 0.0)
    ensures SameAddrs(r, Apply(r, cnf, op))
  {
    match op
    case DoChange(c) => ChangeDstTotal(r, cnf, c);
    case DoChoose(d) => ChooseKeepsAddrs(r, cnf, d);
    case DoDisconnect(a, failed, now) => DisconnectKeepsAddrs(r, cnf, a, failed, now);
    case DoChooseAgain(a, now, d) =>
      DisconnectWellFormed(r, cnf, a, true, now);
      DisconnectKeepsAddrs(r, cnf, a, true, now);
      ChooseKeepsAddrs(Disconnect(r, cnf, a, true, now).0, cnf, d);
  }

  /** While anyone is connecting, no step of any thread moves, adds or removes a row. */
  lemma TableIsFixed(s: System, cnf: Config, lim: Limits, e: Event)
    requires SysInv(s, cnf, lim) && Guard(s, lim, e) && Sound(s, e) && s.busy > 0
    ensures var t := Next(s, cnf, lim, e); t.table == s.table && SameAddrs(s.router, t.router)
  {
    StepPerforms(s, cnf, lim, e);
    PerformedKeepsAddrs(s, Next(s, cnf, lim, e), cnf, e);
  }

  lemma PerformedKeepsAddrs(s: System, t: System, cnf: Config, e: Event)
    requires Performs(s, t, cnf, OpsOf(s, e))
    ensures SameAddrs(s.router, t.router)
  {
    if OpsOf(s, e) != [] {
      OpKeepsAddrs(s.router, cnf, OpsOf(s, e)[0]);
    }
  }

  lemma HolderMakesBusy(s: System, cnf: Config, lim: Limits, id: Id)
    requires SysInv(s, cnf, lim) && id in s.owners && s.owners[id].phase.Holding?
    ensures s.busy > 0
  {
    assert id in Holders(s.owners);
  }

  ghost predicate HoldsThroughout(run: seq<System>, id: Id, j: nat, k: nat)
    requires k < |run|
  {
    forall m :: j <= m <= k ==> id in run[m].owners && run[m].owners[id].phase.Holding?
  }

  ghost predicate SameTable(s: System, t: System) {
    t.table == s.table && SameAddrs(s.router, t.router)
  }

  lemma SameTableFurther(r: System, s: System, t: System)
    requires SameTable(r, s) && SameTable(s, t)
    ensures SameTable(r, t)
  {
  }

  /** So the table is the same at both ends of any stretch of a run through which one
      connection stays in the connect loop. */
  lemma {:induction false} TableIsFixedThroughout(run: seq<System>, cnf: Config, lim: Limits, events: seq<Event>,
                                                  id: Id, j: nat, k: nat)
    requires IsRun(run, cnf, lim, events) && j <= k < |run| && SoundTo(run, events, k) && HoldsThroughout(run, id, j, k)
    ensures SameTable(run[j], run[k])
    decreases k
  {
    if j < k {
      SoundBefore(run, events, k - 1, k);
      TableIsFixedThroughout(run, cnf, lim, events, id, j, k - 1);
      var s, t := run[k - 1], run[k];
      FixedAt(run, cnf, lim, events, id, k - 1, s, t);
      SameTableFurther(run[j], s, t);
    }
  }

  lemma SoundBefore(run: seq<System>, events: seq<Event>, j: nat, k: nat)
    requires SoundTo(run, events, k) && j <= k
    ensures SoundTo(run, events, j)
  {
  }

  lemma FixedAt(run: seq<System>, cnf: Config, lim: Limits, events: seq<Event>, id: Id, k: nat, s: System, t: System)
    requires IsRun(run, cnf, lim, events) && k < |events| && SoundTo(run, events, k + 1)
    requires s == run[k] && t == run[k + 1]
    requires id in s.owners && s.owners[id].phase.Holding?
    ensures SameTable(s, t)
  {
    RunKeeps(run, cnf, lim, events, k);
    HolderMakesBusy(s, cnf, lim, id);
    var e := events[k];
    assert Sound(s, e);
    TableIsFixed(s, cnf, lim, e);
  }

  /** No lost wake-up: a changer that waits without a pending signal waits for a
      thread that is still in the connect loop, and the row it found is still the
      right one. */
  lemma NoLostWakeUp(run: seq<System>, cnf: Config, lim: Limits, events: seq<Event>, k: nat)
    requires IsRun(run, cnf, lim, events) && k < |run| && SoundTo(run, events, k) && run[k].changer.Waiting?
    ensures !run[k].changer.signalled ==> exists id :: id in run[k].owners && run[k].owners[id].phase.Holding?
    ensures run[k].changer.found == Found(run[k].router, run[k].changer.c.addr)
    ensures run[k].changer.table == run[k].table
  {
    RunKeeps(run, cnf, lim, events, k);
    if !run[k].changer.signalled {
      assert |Holders(run[k].owners)| > 0;
      var id :| id in Holders(run[k].owners);
    }
  }

  /** Accounting: every listed destination counts the connections that own its
      address, in flight or pooled, and those dropped while it was listed, less those
      that owned it when it was added. */
  lemma CountsAreExact(run: seq<System>, cnf: Config, lim: Limits, events: seq<Event>, k: nat, i: nat)
    requires IsRun(run, cnf, lim, events) && k < |run| && SoundTo(run, events, k) && i < |run[k].router.dst|
    ensures var a := run[k].router.dst[i].addr;
            run[k].router.dst[i].conns == |OwnersOf(run[k].owners, a)| + Surplus(run[k].surplus, a)
  {
    RunKeeps(run, cnf, lim, events, k);
    RowsAre(run[k].router.dst);
    IndexOf(run[k].router.dst, i);
  }

  /** The event closes a connection whose address is listed, without telling the
      router: what the control socket does when a watchdog is in charge. */
  ghost predicate DropsListed(s: System, e: Event) {
    e.Drop? && exists id :: id in e.ids && id in s.owners && Listed(s, s.owners[id].addr)
  }

  /** The event adds an address that a connection still owns: what the control socket
      does without a watchdog when a destination is removed and added again. */
  ghost predicate ReAdds(s: System, e: Event) {
    match e
    case Request(c) => !Listed(s, c.addr) && c.weight >= 0.0 && s.busy <= 0 && Owned(s, c.addr)
    case Wake => s.changer.Waiting? && s.changer.found.None? && s.changer.c.weight >= 0.0 && s.busy <= 0
                 && Owned(s, s.changer.c.addr)
    case _ => false
  }

  /** Choosing and leaving touch no surplus. */
  lemma ChosenSurplus(s: System, cnf: Config, id: Id, d: Draw, holding: bool)
    requires WellFormed(s.router)
    ensures Chosen(s, cnf, id, d, holding).surplus == s.surplus
    ensures Left(Chosen(s, cnf, id, d, holding)).surplus == s.surplus
  {
  }

  lemma OtherSurplus(s: System, cnf: Config, lim: Limits, e: Event)
    requires Guard(s, lim, e) && Sound(s, e) && (e.StartSync? || e.SyncFail? || e.Redirect? || e.ChooseAsync?)
    ensures Next(s, cnf, lim, e).surplus == s.surplus
  {
    match e
    case ChooseAsync(id, d) => ChosenSurplus(s, cnf, id, d, false);
    case StartSync(id, d) => ChosenSurplus(s.(busy := s.busy + 1), cnf, id, d, true);
    case SyncFail(id, now, d) =>
      DstFailedWellFormed(Released(s.router, s.owners[id].phase.row), cnf, s.owners[id].phase.row, now);
      ChosenSurplus(Undone(s, cnf, id, now), cnf, id, d, true);
    case Redirect(id, now, d) =>
      DisconnectWellFormed(s.router, cnf, s.owners[id].addr, true, now);
      ChosenSurplus(LetGo(s, cnf, id, true, now), cnf, id, d, false);
  }

  /** Only adding an owned address makes a count short, and only that and dropping
      listed connections make it wrong. */
  lemma SurplusNext(s: System, cnf: Config, lim: Limits, e: Event, a: Addr)
    requires Guard(s, lim, e) && Sound(s, e) && !ReAdds(s, e)
    ensures Surplus(s.surplus, a) >= 0 ==> Surplus(Next(s, cnf, lim, e).surplus, a) >= 0
    ensures Surplus(s.surplus, a) == 0 && !DropsListed(s, e) ==> Surplus(Next(s, cnf, lim, e).surplus, a) == 0
  {
    if e.StartSync? || e.SyncFail? || e.Redirect? || e.ChooseAsync? {
      OtherSurplus(s, cnf, lim, e);
    } else if e.Drop? {
      DroppedSurplus(s, e.ids, a);
    } else if e.Request? || e.Wake? {
      UnownedIsEmpty(s, if e.Request? then e.c.addr else s.changer.c.addr);
    }
  }

  lemma UnownedIsEmpty(s: System, a: Addr)
    ensures Owned(s, a) <==> OwnersOf(s.owners, a) != {}
  {
    if Owned(s, a) {
      var id :| id in s.owners && s.owners[id].addr == a;
      assert id in OwnersOf(s.owners, a);
    }
  }

  lemma DroppedSurplus(s: System, ids: set<Id>, a: Addr)
    ensures Surplus(s.surplus, a) >= 0 ==> Surplus(Dropped(s, ids).surplus, a) >= 0
    ensures Surplus(s.surplus, a) == 0 && !DropsListed(s, Drop(ids)) ==> Surplus(Dropped(s, ids).surplus, a) == 0
  {
    RowsAre(s.router.dst);
    if a in Rows(s.router.dst) && !DropsListed(s, Drop(ids)) {
      assert OwnersOf(s.owners, a) * ids == {};
    }
  }

  ghost predicate Healthy(s: System, cnf: Config, lim: Limits) {
    SysInv(s, cnf, lim) && NoDeficit(s)
  }

  lemma StepNotShort(s: System, cnf: Config, lim: Limits, e: Event)
    requires Healthy(s, cnf, lim) && Guard(s, lim, e) && !ReAdds(s, e)
    ensures Sound(s, e) && Healthy(Next(s, cnf, lim, e), cnf, lim)
  {
    InvIsSound(s, cnf, lim, e);
    StepKeeps(s, cnf, lim, e);
    forall a ensures Surplus(Next(s, cnf, lim, e).surplus, a) >= 0 { SurplusNext(s, cnf, lim, e, a); }
  }

  lemma {:induction false} NeverShort(run: seq<System>, cnf: Config, lim: Limits, events: seq<Event>, k: nat)
    requires IsRun(run, cnf, lim, events) && k < |run|
    requires forall j {:trigger events[j]} :: 0 <= j < k ==> !ReAdds(run[j], events[j])
    ensures Healthy(run[k], cnf, lim)
  {
    if k == 0 {
      InitialInv(cnf, lim);
    } else {
      NeverShort(run, cnf, lim, events, k - 1);
      StepNotShort(run[k - 1], cnf, lim, events[k - 1]);
    }
  }

  /** While no owned address is added, no count is short and every assertion holds. */
  lemma StaysSound(run: seq<System>, cnf: Config, lim: Limits, events: seq<Event>, k: nat)
    requires IsRun(run, cnf, lim, events) && k < |run|
    requires forall j {:trigger events[j]} :: 0 <= j < k ==> !ReAdds(run[j], events[j])
    ensures Healthy(run[k], cnf, lim) && SoundTo(run, events, k + 1)
  {
    forall j | 0 <= j <= k
      ensures Healthy(run[j], cnf, lim) && (j < |events| ==> Sound(run[j], events[j]))
    {
      NeverShort(run, cnf, lim, events, j);
      if j < |events| {
        InvIsSound(run[j], cnf, lim, events[j]);
      }
    }
  }

  lemma ListedDropBreaks(s: System, cnf: Config, lim: Limits, e: Event)
    requires SysInv(s, cnf, lim) && Guard(s, lim, e) && DropsListed(s, e)
    requires Exact(Rows(s.router.dst), s.owners)
    ensures !Exact(Rows(Dropped(s, e.ids).router.dst), Dropped(s, e.ids).owners)
  {
    var id :| id in e.ids && id in s.owners && Listed(s, s.owners[id].addr);
    var a := s.owners[id].addr;
    RowsAre(s.router.dst);
    OwnersAfterDrop(s.owners, e.ids, a);
    assert id in OwnersOf(s.owners, a) * e.ids;
  }

  /** Adding an owned address makes its count wrong. */
  lemma AddBreaks(s: System, cnf: Config, c: Change)
    requires Inv(s.router, cnf) && !Listed(s, c.addr) && c.weight >= 0.0 && Owned(s, c.addr)
    ensures var t := Changed(s, cnf, c, None); !Exact(Rows(t.router.dst), t.owners)
  {
    RowsAre(s.router.dst);
    ChangeDstRefines(s.router, cnf, c);
    var t := Changed(s, cnf, c, None);
    var id :| id in s.owners && s.owners[id].addr == c.addr;
    assert id in OwnersOf(t.owners, c.addr);
    assert Rows(t.router.dst)[c.addr].conns == 0;
  }

  lemma ReAddBreaks(s: System, cnf: Config, lim: Limits, e: Event)
    requires SysInv(s, cnf, lim) && Guard(s, lim, e) && Sound(s, e) && ReAdds(s, e)
    ensures !Exact(Rows(Next(s, cnf, lim, e).router.dst), Next(s, cnf, lim, e).owners)
  {
    if e.Request? {
      AddBreaks(s, cnf, e.c);
    } else {
      AddBreaks(s.(waits := s.waits - 1), cnf, s.changer.c);
    }
  }

  ghost predicate Disturbs(s: System, e: Event) {
    DropsListed(s, e) || ReAdds(s, e)
  }

  /** The counts of all listed destinations are exactly their owners. */
  ghost predicate AllExact(s: System) {
    Exact(Rows(s.router.dst), s.owners)
  }

  lemma DisturbBreaks(s: System, cnf: Config, lim: Limits, e: Event)
    requires SysInv(s, cnf, lim) && Guard(s, lim, e) && Sound(s, e) && AllExact(s) && Disturbs(s, e)
    ensures !AllExact(Next(s, cnf, lim, e))
  {
    if DropsListed(s, e) { ListedDropBreaks(s, cnf, lim, e); } else { ReAddBreaks(s, cnf, lim, e); }
  }

  ghost predicate NoSurplus(s: System) {
    forall a :: Surplus(s.surplus, a) == 0
  }

  lemma SurplusStays(s: System, t: System, cnf: Config, lim: Limits, e: Event)
    requires Healthy(s, cnf, lim) && NoSurplus(s) && Stepped(s, t, cnf, lim, e) && !Disturbs(s, e)
    ensures NoSurplus(t)
  {
    InvIsSound(s, cnf, lim, e);
    forall a ensures Surplus(t.surplus, a) == 0 { SurplusNext(s, cnf, lim, e, a); }
  }

  lemma {:induction false} NeverSurplus(run: seq<System>, cnf: Config, lim: Limits, events: seq<Event>, k: nat)
    requires IsRun(run, cnf, lim, events) && k < |run|
    requires forall j {:trigger events[j]} :: 0 <= j < k ==> !Disturbs(run[j], events[j])
    ensures NoSurplus(run[k])
  {
    if k > 0 {
      NeverSurplus(run, cnf, lim, events, k - 1);
      NeverShort(run, cnf, lim, events, k - 1);
      var e := events[k - 1];
      SurplusStays(run[k - 1], run[k], cnf, lim, e);
    }
  }

  lemma UndisturbedIsExact(run: seq<System>, cnf: Config, lim: Limits, events: seq<Event>, k: nat)
    requires IsRun(run, cnf, lim, events) && k < |run|
    requires forall j {:trigger events[j]} :: 0 <= j < k ==> !Disturbs(run[j], events[j])
    ensures AllExact(run[k])
  {
    NeverShort(run, cnf, lim, events, k);
    NeverSurplus(run, cnf, lim, events, k);
  }

  /** Exact counts so far mean nothing has disturbed them. */
  lemma {:induction false} ExactIsUndisturbed(run: seq<System>, cnf: Config, lim: Limits, events: seq<Event>, k: nat)
    requires IsRun(run, cnf, lim, events) && k < |run| && forall j :: 0 <= j <= k ==> AllExact(run[j])
    ensures forall j {:trigger events[j]} :: 0 <= j < k ==> !Disturbs(run[j], events[j])
  {
    if k > 0 {
      ExactIsUndisturbed(run, cnf, lim, events, k - 1);
      StaysSound(run, cnf, lim, events, k - 1);
      assert AllExact(run[k - 1]) && AllExact(run[k]) && Sound(run[k - 1], events[k - 1]);
      if Disturbs(run[k - 1], events[k - 1]) {
        DisturbBreaks(run[k - 1], cnf, lim, events[k - 1]);
      }
    }
  }

  /** In a run every listed destination counts exactly the connections that own it,
      all the time, if and only if no listed connection is ever dropped and no owned
      address ever added. */
  lemma ExactRuns(run: seq<System>, cnf: Config, lim: Limits, events: seq<Event>)
    requires IsRun(run, cnf, lim, events)
    ensures (forall k :: 0 <= k < |run| ==> AllExact(run[k]))
            <==> forall k {:trigger events[k]} :: 0 <= k < |events| ==>
                   !DropsListed(run[k], events[k]) && !ReAdds(run[k], events[k])
  {
    if forall k :: 0 <= k < |run| ==> AllExact(run[k]) {
      ExactIsUndisturbed(run, cnf, lim, events, |events|);
      assert forall k {:trigger events[k]} :: 0 <= k < |events| ==> !Disturbs(run[k], events[k]);
    }
    if forall k {:trigger events[k]} :: 0 <= k < |events| ==>
         !DropsListed(run[k], events[k]) && !ReAdds(run[k], events[k]) {
      forall k | 0 <= k < |run| ensures AllExact(run[k]) { UndisturbedIsExact(run, cnf, lim, events, k); }
    }
  }

  /** With one listener the total passes `max_conn` only by the number of
      redirected connections whose old address had been removed. */
  lemma TotalIsLimited(run: seq<System>, cnf: Config, lim: Limits, events: seq<Event>, k: nat)
    requires IsRun(run, cnf, lim, events) && k < |run| && SoundTo(run, events, k) && lim.limited
    ensures run[k].router.conns <= Max(0, lim.maxConn) + run[k].lost
  {
    RunKeeps(run, cnf, lim, events, k);
  }

  // ------------------------------------------------- the hypotheses are needed

  /** Adding an unlisted address keeps exact counts exact if and only if no connection
      still owns that address. */
  lemma ReAddCondition(s: System, cnf: Config, lim: Limits, c: Change)
    requires SysInv(s, cnf, lim) && AllExact(s) && !Listed(s, c.addr) && c.weight >= 0.0
    ensures AllExact(Changed(s, cnf, c, None)) <==> !Owned(s, c.addr)
  {
    RowsAre(s.router.dst);
    ChangeDstRefines(s.router, cnf, c);
    if Owned(s, c.addr) {
      AddBreaks(s, cnf, c);
    } else {
      assert OwnersOf(s.owners, c.addr) == {};
    }
  }

  ghost function PooledAt(s: System, a: Addr): set<Id> {
    set id | id in s.owners && s.owners[id] == Owner(a, Pooled)
  }

  /** Dropping an address from the pool keeps exact counts exact if and only if the
      address is not listed or has no pooled connection. */
  lemma DropCondition(s: System, cnf: Config, lim: Limits, a: Addr)
    requires SysInv(s, cnf, lim) && AllExact(s)
    ensures AllExact(Dropped(s, PooledAt(s, a))) <==> !Listed(s, a) || PooledAt(s, a) == {}
  {
    var ids := PooledAt(s, a);
    RowsAre(s.router.dst);
    if Listed(s, a) && ids != {} {
      var id :| id in ids;
      ListedDropBreaks(s, cnf, lim, Drop(ids));
    } else {
      forall b | b in Rows(s.router.dst)
        ensures OwnersOf(s.owners - ids, b) == OwnersOf(s.owners, b)
      {
      }
    }
  }

  /** The two assertions of `glb_router_choose_dst_again`: the first holds if and
      only if the old address is listed, the second if and only if it is listed
      exactly when another destination is found. */
  lemma RedirectAssertions(s: System, cnf: Config, lim: Limits, id: Id, now: int, d: Draw)
    requires SysInv(s, cnf, lim) && Guard(s, lim, Redirect(id, now, d)) && Sound(s, Redirect(id, now, d))
    ensures var a := s.owners[id].addr;
            var (t, r) := ChooseAgain(s.router, cnf, a, now, d);
            && Next(s, cnf, lim, Redirect(id, now, d)).router == t
            && (Disconnect(s.router, cnf, a, true, now).1 != |s.router.dst| <==> Listed(s, a))
            && (t.conns == s.router.conns <==> (Listed(s, a) <==> r.Some?))
  {
    ChooseAgainRefines(s.router, cnf, s.owners[id].addr, now, d);
    RowsAre(s.router.dst);
  }

  // ------------------------------------------ runs in which the assertions fail

  const A: Addr := Addr(1, 1)
  const PLAIN: Config := Config(Least, false, 0, 0)
  const FREE: Limits := Limits(false, 0)
  const DRAW: Draw := Draw(100, 0, 0, (i: nat) => Probe(0, true, 0, 0))
  const ADD: Change := Change(A, 1.0, false, 0, 100, 0.0)
  const ADDED: State := State([Entry(A, 1.0, 1.0, 0.0, 0, 0, 0, false)], 0, 0, None, Context(EPS, 1, 100), 0, 0)
  const USED: State := State([Entry(A, 1.0, 0.5, 0.0, 0, 0, 1, false)], 1, 0, None, Context(EPS, 1, 100), 0, 0)
  const POOLED: System := System(USED, 1, 0, 0, Idle, map[0 := Owner(A, Pooled)], false, 0, map[A := 0])

  lemma OneAdded()
    ensures ChangeFound(Start, PLAIN, ADD, None).0 == ADDED
  {
    var s := Appended(Start, A, 1.0, false, 0, 0.0);
    assert s.dst == ADDED.dst;
    assert RetryInterval(PLAIN) == 1;
    assert UpdateCtx(s, PLAIN, 100) == ADDED;
  }

  lemma OneChosen()
    ensures Choose(ADDED, PLAIN, DRAW) == (USED, Some(0))
  {
    assert Prepared(ADDED, PLAIN, 100) == ADDED;
    assert Eligible(ADDED, 0);
    assert LeastScan(ADDED, 1, Some(0)) == Some(0);
    assert LeastScan(ADDED, 0, None) == Some(0);
    assert CheckAt(ADDED, 0, 0, DRAW.probe(0)) == ADDED;
    assert Acquired(ADDED, 0).dst[0] == USED.dst[0];
    assert Acquired(ADDED, 0) == USED;
  }

  /** A run that goes on. */
  lemma OneMore(run: seq<System>, cnf: Config, lim: Limits, events: seq<Event>, e: Event, next: System)
    requires IsRun(run, cnf, lim, events) && SoundTo(run, events, |events|)
    requires Guard(run[|run| - 1], lim, e) && Sound(run[|run| - 1], e) && next == Next(run[|run| - 1], cnf, lim, e)
    ensures IsRun(run + [next], cnf, lim, events + [e]) && SoundTo(run + [next], events + [e], |events| + 1)
  {
    IsStepped(run[|run| - 1], next, cnf, lim, e);
    RunGoesOn(run, cnf, lim, events, e, next);
    SoundGoesOn(run, events, e, next);
  }

  lemma RunGoesOn(run: seq<System>, cnf: Config, lim: Limits, events: seq<Event>, e: Event, next: System)
    requires IsRun(run, cnf, lim, events) && Stepped(run[|run| - 1], next, cnf, lim, e)
    ensures IsRun(run + [next], cnf, lim, events + [e])
  {
    var longer, more := run + [next], events + [e];
    forall k | 0 <= k < |more|
      ensures Stepped(longer[k], longer[k + 1], cnf, lim, more[k])
    {
      if k < |events| {
        SameStep(run, cnf, lim, events, k, longer[k], longer[k + 1], more[k]);
      }
    }
  }

  lemma SameStep(run: seq<System>, cnf: Config, lim: Limits, events: seq<Event>, k: nat, s: System, t: System, e: Event)
    requires IsRun(run, cnf, lim, events) && k < |events| && s == run[k] && t == run[k + 1] && e == events[k]
    ensures Stepped(s, t, cnf, lim, e)
  {
  }

  lemma SoundGoesOn(run: seq<System>, events: seq<Event>, e: Event, next: System)
    requires |run| == |events| + 1 && SoundTo(run, events, |events|) && Sound(run[|run| - 1], e)
    ensures SoundTo(run + [next], events + [e], |events| + 1)
  {
    var longer, more := run + [next], events + [e];
    forall k | 0 <= k < |more|
      ensures Sound(longer[k], more[k])
    {
      if k < |events| { assert Sound(run[k], events[k]); }
    }
  }

  lemma IsStepped(s: System, t: System, cnf: Config, lim: Limits, e: Event)
    requires Guard(s, lim, e) && Sound(s, e) && t == Next(s, cnf, lim, e)
    ensures Stepped(s, t, cnf, lim, e)
  {
  }

  lemma AddStep()
    ensures Guard(Initial, FREE, Request(ADD)) && Sound(Initial, Request(ADD))
    ensures Next(Initial, PLAIN, FREE, Request(ADD)) == Initial.(router := ADDED, table := 1, surplus := map[A := 0])
  {
    OneAdded();
    assert OwnersOf(map[], A) == {};
  }

  lemma ChooseStep(s: System)
    requires s.router == ADDED && s.owners == map[] && !s.gate
    ensures Guard(s, FREE, ChooseAsync(0, DRAW)) && Sound(s, ChooseAsync(0, DRAW))
    ensures Next(s, PLAIN, FREE, ChooseAsync(0, DRAW)) == s.(router := USED, owners := map[0 := Owner(A, Handoff)])
  {
    OneChosen();
  }

  /** One destination with one pooled connection is reachable. */
  lemma OnePooled() returns (run: seq<System>, events: seq<Event>)
    ensures IsRun(run, PLAIN, FREE, events) && |run| > 0 && run[|run| - 1] == POOLED
    ensures SoundTo(run, events, |events|)
    ensures forall j {:trigger events[j]} :: 0 <= j < |events| ==> !ReAdds(run[j], events[j])
  {
    var s1 := Initial.(router := ADDED, table := 1, surplus := map[A := 0]);
    var s2 := s1.(router := USED, owners := map[0 := Owner(A, Handoff)]);
    run, events := [Initial], [];
    AddStep();
    OneMore(run, PLAIN, FREE, events, Request(ADD), s1);
    run, events := run + [s1], events + [Request(ADD)];
    ChooseStep(s1);
    OneMore(run, PLAIN, FREE, events, ChooseAsync(0, DRAW), s2);
    run, events := run + [s2], events + [ChooseAsync(0, DRAW)];
    OneMore(run, PLAIN, FREE, events, Deliver(0), POOLED);
    run, events := run + [POOLED], events + [Deliver(0)];
  }

  lemma PooledInv()
    ensures SysInv(POOLED, PLAIN, FREE)
  {
    var run, events := OnePooled();
    NeverShort(run, PLAIN, FREE, events, |run| - 1);
  }

  lemma OnlyOneFails()
    ensures MayDisconnect(USED, A) && ChooseAgain(USED, PLAIN, A, 100, DRAW).1.None?
  {
    var t := Disconnect(USED, PLAIN, A, true, 100).0;
    assert |t.dst| == 1 && t.dst[0].failed == 100;
    var p := Prepared(t, PLAIN, 100);
    assert p.dst == t.dst && !Eligible(p, 0);
    assert LeastScan(p, 1, None).None? && LeastScan(p, 0, None).None?;
  }

  /** The second assertion can fail: when the only destination fails, the total is
      one less. */
  lemma SecondAssertionFails() returns (run: seq<System>, events: seq<Event>)
    ensures IsRun(run, PLAIN, FREE, events) && |run| > 0 && Guard(run[|run| - 1], FREE, Redirect(0, 100, DRAW))
    ensures var s := run[|run| - 1].router;
            WellFormed(s) && MayDisconnect(s, A) && ChooseAgain(s, PLAIN, A, 100, DRAW).0.conns != s.conns
  {
    run, events := OnePooled();
    OnlyOneFails();
    assert Index(USED.dst, A) == 0;
    PooledInv();
    RedirectAssertions(POOLED, PLAIN, FREE, 0, 100, DRAW);
  }

  /** The first assertion can fail: when the old address has been removed. */
  lemma FirstAssertionFails() returns (run: seq<System>, events: seq<Event>)
    ensures IsRun(run, PLAIN, FREE, events) && |run| > 0 && Guard(run[|run| - 1], FREE, Redirect(0, 100, DRAW))
    ensures var s := run[|run| - 1];
            WellFormed(s.router) && !Listed(s, A) && Disconnect(s.router, PLAIN, A, true, 100).1 == |s.router.dst|
  {
    var remove := ADD.(weight := -1.0);
    run, events := OnePooled();
    var gone := RemovedAgain(remove);
    OneMore(run, PLAIN, FREE, events, Request(remove), gone);
    run, events := run + [gone], events + [Request(remove)];
  }

  lemma OnlyOneRemoved(c: Change)
    requires c.addr == A && c.weight < 0.0
    ensures WellFormed(USED) && ChangeFound(USED, PLAIN, c, Some(0)).0.dst == []
  {
  }

  /** A listed connection can be dropped; its destination then counts a connection
      that nobody owns. */
  lemma ListedDropHappens() returns (run: seq<System>, events: seq<Event>)
    ensures IsRun(run, PLAIN, FREE, events) && |run| > 0 && Guard(run[|run| - 1], FREE, Drop({0}))
    ensures DropsListed(run[|run| - 1], Drop({0}))
    ensures var t := Dropped(run[|run| - 1], {0});
            |t.router.dst| == 1 && t.router.dst[0].conns == 1 && t.owners == map[]
  {
    run, events := OnePooled();
    DropFromPooled();
  }

  lemma DropFromPooled()
    ensures Guard(POOLED, FREE, Drop({0})) && DropsListed(POOLED, Drop({0}))
    ensures Dropped(POOLED, {0}).owners == map[]
  {
    assert Index(USED.dst, A) == 0;
  }

  /** A destination is removed and added again while a connection to it is open; when
      that connection closes, the assertion of `router_disconnect` fails. */
  lemma CloseAfterReAdd() returns (run: seq<System>, events: seq<Event>)
    ensures IsRun(run, PLAIN, FREE, events) && |run| > 0 && SoundTo(run, events, |run| - 1)
    ensures var s := run[|run| - 1];
            Guard(s, FREE, Disconnected(0, false, 100)) && !Sound(s, Disconnected(0, false, 100))
  {
    var remove := ADD.(weight := -1.0);
    run, events := OnePooled();
    var gone := RemovedAgain(remove);
    var back := AddedAgain(gone);
    OneMore(run, PLAIN, FREE, events, Request(remove), gone);
    run, events := run + [gone], events + [Request(remove)];
    OneMore(run, PLAIN, FREE, events, Request(ADD), back);
    run, events := run + [back], events + [Request(ADD)];
  }

  lemma RemovedAgain(remove: Change) returns (gone: System)
    requires remove == ADD.(weight := -1.0)
    ensures gone == Next(POOLED, PLAIN, FREE, Request(remove))
    ensures gone.router.dst == [] && WellFormed(gone.router)
    ensures gone == POOLED.(router := gone.router, table := 2, surplus := map[])
  {
    assert Index(USED.dst, A) == 0 && Found(USED, A) == Some(0);
    OnlyOneRemoved(remove);
    RefreshWellFormed(Removed(USED, 0), PLAIN, 100);
    gone := Next(POOLED, PLAIN, FREE, Request(remove));
    assert gone.surplus == map[];
  }

  lemma AddedAgain(gone: System) returns (back: System)
    requires gone.router.dst == [] && WellFormed(gone.router)
    requires gone == POOLED.(router := gone.router, table := 2, surplus := map[])
    ensures back == Next(gone, PLAIN, FREE, Request(ADD))
    ensures Guard(back, FREE, Disconnected(0, false, 100)) && !Sound(back, Disconnected(0, false, 100))
  {
    assert Found(gone.router, A) == None;
    AddedEmpty(gone.router);
    back := Next(gone, PLAIN, FREE, Request(ADD));
  }

  lemma AddedEmpty(s: State)
    requires WellFormed(s) && s.dst == []
    ensures var t := ChangeFound(s, PLAIN, ADD, None).0; Index(t.dst, A) == 0 && |t.dst| == 1 && t.dst[0].conns == 0
  {
  }

  /** A second thread that also found the address missing before waiting would add
      it twice: the table is a map only because one thread changes it. */
  lemma SecondChangerDuplicates(s: State, cnf: Config, c: Change)
    requires Inv(s, cnf) && c.weight >= 0.0 && !Has(s.dst, c.addr)
    ensures var t := ChangeFound(s, cnf, c, None).0; WellFormed(t) && !Distinct(ChangeFound(t, cnf, c, None).0.dst)
  {
    var s1 := Appended(s, c.addr, c.weight, c.probed, c.nowNs, c.junk);
    RefreshWellFormed(s1, cnf, c.now);
    TopScanShape(UpdateCtx(s1, cnf, c.now), 0);
    var t := Refresh(s1, cnf, c.now);
    var t1 := Appended(t, c.addr, c.weight, c.probed, c.nowNs, c.junk);
    TopScanShape(UpdateCtx(t1, cnf, c.now), 0);
    var u := Refresh(t1, cnf, c.now);
    assert u.dst[|s.dst|].addr == c.addr && u.dst[|s.dst| + 1].addr == c.addr;
  }
}
