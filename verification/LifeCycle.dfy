/** The system of threads seen from outside: the life of one connection, when a requested
    change takes effect, and what is lost by failing over from an address that is gone. */
module LifeCycle {
  import opened RouterState
  import opened RouterInvariant
  import opened Concurrency

  // ----------------------------------------------------- one connection's life

  ghost function OwnerOf(s: System, id: Id): Option<Owner> {
    if id in s.owners then Some(s.owners[id]) else None
  }

  /** The event is about this connection. */
  ghost predicate Concerns(e: Event, id: Id) {
    match e
    case Admit => false
    case Drop(ids) => id in ids
    case Request(_) => false
    case Wake => false
    case _ => e.id == id
  }

  /** How a connection moves on: from the connect loop, or from an asynchronous choice, to
      the hand-off and into the pool, at the address that was chosen; failing over, it
      stays where it is or ends; and it moves by no event but its own. */
  ghost predicate MovesOn(before: Option<Owner>, e: Event, id: Id, after: Option<Owner>) {
    if !Concerns(e, id) then after == before
    else
      match e
      case ChooseAsync(_, _) => before == None && (after == None || after.value.phase.Handoff?)
      case StartSync(_, _) => before == None && (after == None || after.value.phase.Holding?)
      case SyncOk(_) => before.Some? && before.value.phase.Holding? && after == Some(Owner(before.value.addr, Handoff))
      case SyncFail(_, _, _) =>
        before.Some? && before.value.phase.Holding? && (after == None || after.value.phase.Holding?)
      case Deliver(_) => before.Some? && before.value.phase.Handoff? && after == Some(Owner(before.value.addr, Pooled))
      case Redirect(_, _, _) =>
        before.Some? && before.value.phase.Pooled? && (after == None || after.value.phase.Pooled?)
      case _ => before.Some? && !before.value.phase.Holding? && after == None
  }

  lemma ConnectionMovesOn(s: System, cnf: Config, lim: Limits, e: Event, id: Id)
    requires SysInv(s, cnf, lim) && Guard(s, lim, e) && Sound(s, e)
    ensures MovesOn(OwnerOf(s, id), e, id, OwnerOf(Next(s, cnf, lim, e), id))
  {
    match e
    case ChooseAsync(other, d) => AsyncMovesOn(s, cnf, lim, other, d, id);
    case StartSync(other, d) => StartMovesOn(s, cnf, lim, other, d, id);
    case SyncFail(other, now, d) => FailMovesOn(s, cnf, lim, other, now, d, id);
    case Redirect(other, now, d) => RedirectMovesOn(s, cnf, lim, other, now, d, id);
    case SyncOk(other) => OkMovesOn(s, cnf, lim, other, id);
    case Request(c) => ChangeMovesNone(s, cnf, lim, e, id);
    case Wake => ChangeMovesNone(s, cnf, lim, e, id);
    case _ => EndMovesOn(s, cnf, lim, e, id);
  }

  lemma AsyncMovesOn(s: System, cnf: Config, lim: Limits, other: Id, d: Draw, id: Id)
    requires Guard(s, lim, ChooseAsync(other, d)) && Sound(s, ChooseAsync(other, d))
    ensures var e := ChooseAsync(other, d); MovesOn(OwnerOf(s, id), e, id, OwnerOf(Next(s, cnf, lim, e), id))
    ensures ChoiceFollowed(s, cnf, ChooseAsync(other, d), Next(s, cnf, lim, ChooseAsync(other, d)))
  {
    ChosenOwner(s, cnf, other, d, false, id);
  }

  lemma StartMovesOn(s: System, cnf: Config, lim: Limits, other: Id, d: Draw, id: Id)
    requires Guard(s, lim, StartSync(other, d)) && Sound(s, StartSync(other, d))
    ensures var e := StartSync(other, d); MovesOn(OwnerOf(s, id), e, id, OwnerOf(Next(s, cnf, lim, e), id))
    ensures ChoiceFollowed(s, cnf, StartSync(other, d), Next(s, cnf, lim, StartSync(other, d)))
  {
    ChosenOwner(s.(busy := s.busy + 1), cnf, other, d, true, id);
  }

  lemma FailMovesOn(s: System, cnf: Config, lim: Limits, other: Id, now: int, d: Draw, id: Id)
    requires SysInv(s, cnf, lim) && Guard(s, lim, SyncFail(other, now, d)) && Sound(s, SyncFail(other, now, d))
    ensures var e := SyncFail(other, now, d); MovesOn(OwnerOf(s, id), e, id, OwnerOf(Next(s, cnf, lim, e), id))
  {
    DstFailedWellFormed(Released(s.router, s.owners[other].phase.row), cnf, s.owners[other].phase.row, now);
    ChosenOwner(Undone(s, cnf, other, now), cnf, other, d, true, id);
  }

  lemma RedirectMovesOn(s: System, cnf: Config, lim: Limits, other: Id, now: int, d: Draw, id: Id)
    requires Guard(s, lim, Redirect(other, now, d)) && Sound(s, Redirect(other, now, d))
    ensures var e := Redirect(other, now, d); MovesOn(OwnerOf(s, id), e, id, OwnerOf(Next(s, cnf, lim, e), id))
  {
    DisconnectWellFormed(s.router, cnf, s.owners[other].addr, true, now);
    ChosenOwner(LetGo(s, cnf, other, true, now), cnf, other, d, false, id);
  }

  lemma OkMovesOn(s: System, cnf: Config, lim: Limits, other: Id, id: Id)
    requires SysInv(s, cnf, lim) && Guard(s, lim, SyncOk(other)) && Sound(s, SyncOk(other))
    ensures MovesOn(OwnerOf(s, id), SyncOk(other), id, OwnerOf(Next(s, cnf, lim, SyncOk(other)), id))
  {
    assert HoldsRow(s, other);
  }

  lemma ChangeMovesNone(s: System, cnf: Config, lim: Limits, e: Event, id: Id)
    requires Guard(s, lim, e) && Sound(s, e) && (e.Request? || e.Wake?)
    ensures Next(s, cnf, lim, e).owners == s.owners
  {
  }

  lemma EndMovesOn(s: System, cnf: Config, lim: Limits, e: Event, id: Id)
    requires Guard(s, lim, e) && Sound(s, e) && (e.Admit? || e.Deliver? || e.Disconnected? || e.Drop?)
    ensures MovesOn(OwnerOf(s, id), e, id, OwnerOf(Next(s, cnf, lim, e), id))
  {
  }

  lemma ChosenOwner(s: System, cnf: Config, other: Id, d: Draw, holding: bool, id: Id)
    requires WellFormed(s.router) && other !in s.owners
    ensures var t := Chosen(s, cnf, other, d, holding);
            && OwnerOf(Left(t), id) == OwnerOf(t, id)
            && (id != other ==> OwnerOf(t, id) == OwnerOf(s, id))
            && (other in t.owners ==>
                 var p := t.owners[other].phase; if holding then p.Holding? else p.Handoff?)
            && WhereChosen(Choose(s.router, cnf, d), OwnerOf(t, other))
  {
  }

  /** The choices that are made for a connection, and where it then is: the router has
      chosen a row if and only if the connection goes on, to that row's address. */
  ghost predicate WhereChosen(r: (State, Option<nat>), after: Option<Owner>) {
    if r.1.Some? then r.1.value < |r.0.dst| && after.Some? && after.value.addr == r.0.dst[r.1.value].addr
    else after == None
  }

  ghost predicate ChoiceFollowed(s: System, cnf: Config, e: Event, t: System)
    requires Sound(s, e)
  {
    match e
    case ChooseAsync(id, d) => WhereChosen(Choose(s.router, cnf, d), OwnerOf(t, id))
    case StartSync(id, d) => WhereChosen(Choose(s.router, cnf, d), OwnerOf(t, id))
    case SyncFail(id, now, d) =>
      MayDisconnect(s.router, s.owners[id].addr)
      && WhereChosen(ChooseAgain(s.router, cnf, s.owners[id].addr, now, d), OwnerOf(t, id))
    case Redirect(id, now, d) =>
      WhereChosen(ChooseAgain(s.router, cnf, s.owners[id].addr, now, d), OwnerOf(t, id))
    case _ => true
  }

  lemma ChoiceIsFollowed(s: System, cnf: Config, lim: Limits, e: Event)
    requires SysInv(s, cnf, lim) && Guard(s, lim, e) && Sound(s, e)
    ensures ChoiceFollowed(s, cnf, e, Next(s, cnf, lim, e))
  {
    match e
    case ChooseAsync(id, d) => AsyncMovesOn(s, cnf, lim, id, d, id);
    case StartSync(id, d) => StartMovesOn(s, cnf, lim, id, d, id);
    case SyncFail(id, now, d) => FailIsFollowed(s, cnf, lim, id, now, d);
    case Redirect(id, now, d) => RedirectIsFollowed(s, cnf, lim, id, now, d);
    case _ =>
  }

  lemma FailIsFollowed(s: System, cnf: Config, lim: Limits, id: Id, now: int, d: Draw)
    requires SysInv(s, cnf, lim) && Guard(s, lim, SyncFail(id, now, d)) && Sound(s, SyncFail(id, now, d))
    ensures ChoiceFollowed(s, cnf, SyncFail(id, now, d), Next(s, cnf, lim, SyncFail(id, now, d)))
  {
    var row := s.owners[id].phase.row;
    IndexOf(s.router.dst, row);
    DstFailedWellFormed(Released(s.router, row), cnf, row, now);
    ChosenOwner(Undone(s, cnf, id, now), cnf, id, d, true, id);
  }

  lemma RedirectIsFollowed(s: System, cnf: Config, lim: Limits, id: Id, now: int, d: Draw)
    requires Guard(s, lim, Redirect(id, now, d)) && Sound(s, Redirect(id, now, d))
    ensures ChoiceFollowed(s, cnf, Redirect(id, now, d), Next(s, cnf, lim, Redirect(id, now, d)))
  {
    DisconnectWellFormed(s.router, cnf, s.owners[id].addr, true, now);
    ChosenOwner(LetGo(s, cnf, id, true, now), cnf, id, d, false, id);
  }

  // ------------------------------------------------- when a change takes effect

  /** The change that an event puts into effect: the one requested, unless it adds or
      removes while somebody is connecting, and the one that waited once nobody is. */
  ghost function InEffect(s: System, e: Event): Option<Change> {
    match e
    case Request(c) => if s.busy > 0 && (Listed(s, c.addr) <==> c.weight < 0.0) then None else Some(c)
    case Wake => if s.busy == 0 && s.changer.Waiting? then Some(s.changer.c) else None
    case _ => None
  }

  ghost function Pending(s: System): Option<Change> {
    if s.changer.Waiting? then Some(s.changer.c) else None
  }

  ghost predicate SameList(m: map<Addr, Row>, m': map<Addr, Row>) {
    forall a :: (a in m <==> a in m') && (a in m ==> m[a].weight == m'[a].weight)
  }

  /** A change takes effect once, as a whole, and only when nobody is connecting if it
      adds or removes; until then it is the one pending, and no other event adds,
      removes or re-weights a destination. */
  lemma ChangeTakesEffect(s: System, cnf: Config, lim: Limits, e: Event)
    requires SysInv(s, cnf, lim) && Guard(s, lim, e) && Sound(s, e)
    ensures var t, m := Next(s, cnf, lim, e), Rows(s.router.dst);
            match InEffect(s, e)
            case Some(c) => Rows(t.router.dst) == MapChange(m, c.addr, c.weight) && Pending(t) == None
            case None =>
              SameList(m, Rows(t.router.dst)) && Pending(t) == if e.Request? then Some(e.c) else Pending(s)
  {
    if e.Request? {
      RequestTakesEffect(s, cnf, lim, e.c);
    } else if InEffect(s, e).Some? {
      ChangeDstRefines(s.router, cnf, s.changer.c);
    } else {
      OtherEventsKeepList(s, cnf, lim, e);
    }
  }

  lemma RequestTakesEffect(s: System, cnf: Config, lim: Limits, c: Change)
    requires SysInv(s, cnf, lim) && s.changer.Idle?
    ensures var t, m := Next(s, cnf, lim, Request(c)), Rows(s.router.dst);
            if InEffect(s, Request(c)).Some?
            then Rows(t.router.dst) == MapChange(m, c.addr, c.weight) && Pending(t) == None
            else t.router == s.router && Pending(t) == Some(c)
  {
    ChangeDstRefines(s.router, cnf, c);
    RequestIs(s, cnf, lim, c);
    NothingToRemove(s.router, c);
  }

  /** At once the router changes; otherwise the change waits, and nothing else happens. */
  lemma RequestIs(s: System, cnf: Config, lim: Limits, c: Change)
    requires WellFormed(s.router) && s.changer.Idle?
    ensures var t := Next(s, cnf, lim, Request(c));
            if InEffect(s, Request(c)).Some?
            then t.changer.Idle? && t.router == (if !Listed(s, c.addr) && c.weight < 0.0 then s.router
                                                 else ChangeDst(s.router, cnf, c).0)
            else t.router == s.router && Pending(t) == Some(c)
  {
  }

  lemma NothingToRemove(r: State, c: Change)
    ensures !Has(r.dst, c.addr) && c.weight < 0.0 ==> MapChange(Rows(r.dst), c.addr, c.weight) == Rows(r.dst)
  {
    RowsAre(r.dst);
  }

  lemma OtherEventsKeepList(s: System, cnf: Config, lim: Limits, e: Event)
    requires SysInv(s, cnf, lim) && Guard(s, lim, e) && Sound(s, e) && !e.Request? && InEffect(s, e).None?
    ensures var t := Next(s, cnf, lim, e);
            SameList(Rows(s.router.dst), Rows(t.router.dst)) && Pending(t) == Pending(s)
  {
    StepPerforms(s, cnf, lim, e);
    var ops := OpsOf(s, e);
    if ops != [] {
      StepRefines(s.router, cnf, ops[0]);
      MapStepKeepsList(Rows(s.router.dst), ops[0], Rows(Apply(s.router, cnf, ops[0]).dst));
    }
    PendingStays(s, cnf, lim, e);
  }

  lemma MapStepKeepsList(m: map<Addr, Row>, op: Op, m': map<Addr, Row>)
    requires MapStep(m, op, m') && !op.DoChange?
    ensures SameList(m, m')
  {
  }

  lemma PendingStays(s: System, cnf: Config, lim: Limits, e: Event)
    requires Guard(s, lim, e) && Sound(s, e) && !e.Request? && InEffect(s, e).None?
    ensures s.busy >= 0 ==> Pending(Next(s, cnf, lim, e)) == Pending(s)
  {
  }

  // ------------------------------------------------------------ what is lost

  /** One connection has failed over from an address that is no longer listed, whose count
      it could not give back, and is counted anew. */
  ghost function LossBy(s: System, e: Event, t: System): nat {
    if e.Redirect? && e.id in s.owners && !Listed(s, s.owners[e.id].addr) && e.id in t.owners then 1 else 0
  }

  ghost function Losses(run: seq<System>, events: seq<Event>, k: nat): nat
    requires k <= |events| && |run| == |events| + 1
  {
    if k == 0 then 0 else Losses(run, events, k - 1) + LossBy(run[k - 1], events[k - 1], run[k])
  }

  lemma LossStep(s: System, cnf: Config, lim: Limits, e: Event)
    requires Guard(s, lim, e) && Sound(s, e)
    ensures var t := Next(s, cnf, lim, e); t.lost == s.lost + LossBy(s, e, t)
  {
    if e.Redirect? {
      RedirectLoses(s, cnf, lim, e.id, e.now, e.d);
    } else {
      NothingLost(s, cnf, lim, e);
    }
  }

  lemma RedirectLoses(s: System, cnf: Config, lim: Limits, id: Id, now: int, d: Draw)
    requires Guard(s, lim, Redirect(id, now, d)) && Sound(s, Redirect(id, now, d))
    ensures var t := Next(s, cnf, lim, Redirect(id, now, d));
            t.lost == s.lost + (if !Listed(s, s.owners[id].addr) && id in t.owners then 1 else 0)
  {
    DisconnectWellFormed(s.router, cnf, s.owners[id].addr, true, now);
    ChosenOwner(LetGo(s, cnf, id, true, now), cnf, id, d, false, id);
  }

  lemma NothingLost(s: System, cnf: Config, lim: Limits, e: Event)
    requires Guard(s, lim, e) && Sound(s, e) && !e.Redirect?
    ensures Next(s, cnf, lim, e).lost == s.lost
  {
  }

  /** By how much the total may pass the limit: by the number of such failures over, in
      every run before which the code's assertions hold. */
  lemma {:induction false} LimitAndLosses(run: seq<System>, cnf: Config, lim: Limits, events: seq<Event>, k: nat)
    requires Concurrency.IsRun(run, cnf, lim, events) && k <= |events| && SoundTo(run, events, k)
    ensures run[k].lost == Losses(run, events, k)
    ensures lim.limited ==> run[k].router.conns <= Max(0, lim.maxConn) + Losses(run, events, k)
  {
    if k > 0 {
      LimitAndLosses(run, cnf, lim, events, k - 1);
      var e := events[k - 1];
      assert Stepped(run[k - 1], run[k], cnf, lim, e) && Sound(run[k - 1], e);
      LossStep(run[k - 1], cnf, lim, e);
    }
    RunKeeps(run, cnf, lim, events, k);
  }
}
