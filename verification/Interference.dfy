/** What happens to the router while one thread is connecting: the wait protocol leaves
    other threads exactly the operations that `Failover` lets them take. */
module Interference {
  import opened RouterState
  import opened RouterInvariant
  import opened Concurrency
  import Failover

  /** The event is a step of the thread that connects `id`. */
  predicate Mine(e: Event, id: Id) {
    (e.SyncOk? || e.SyncFail?) && e.id == id
  }

  /** `id` is in the connect loop, with the lock released. */
  ghost predicate Connecting(s: System, id: Id) {
    id in s.owners && s.owners[id].phase.Holding?
  }

  /** A connection that owns a listed address is counted there, beside the one that is
      being made. */
  lemma OthersAreCounted(s: System, cnf: Config, lim: Limits, id: Id, other: Id)
    requires Healthy(s, cnf, lim) && Connecting(s, id) && other in s.owners && other != id
    ensures Failover.OthersHave(s.router, s.owners[other].addr, s.owners[id].phase.row)
  {
    var a := s.owners[other].addr;
    var i := Index(s.router.dst, a);
    if i < |s.router.dst| {
      RowsAre(s.router.dst);
      assert Surplus(s.surplus, a) >= 0;
      assert other in OwnersOf(s.owners, a);
      if i == s.owners[id].phase.row {
        TwoOwners(s.owners, a, id, other);
      } else {
        assert OwnersOf(s.owners, a) != {};
      }
    }
  }

  lemma TwoOwners(owners: map<Id, Owner>, a: Addr, id: Id, other: Id)
    requires id in OwnersOf(owners, a) && other in OwnersOf(owners, a) && id != other
    ensures |OwnersOf(owners, a)| >= 2
  {
    var rest := OwnersOf(owners, a) - {id};
    assert other in rest;
    assert OwnersOf(owners, a) == rest + {id};
  }

  lemma OwnIsCounted(s: System, cnf: Config, lim: Limits, id: Id)
    requires Healthy(s, cnf, lim) && Connecting(s, id)
    ensures Failover.Holds(s.router, s.owners[id].phase.row)
  {
    RowsAre(s.router.dst);
    IndexOf(s.router.dst, s.owners[id].phase.row);
    assert Surplus(s.surplus, s.owners[id].addr) >= 0;
    assert id in OwnersOf(s.owners, s.owners[id].addr);
    assert OwnersOf(s.owners, s.owners[id].addr) != {};
  }

  /** A step of any other thread is at most one operation on the router, and one that is
      allowed there; the connecting thread's own connection stays counted. */
  lemma OthersPerform(s: System, cnf: Config, lim: Limits, e: Event, id: Id)
    requires Healthy(s, cnf, lim) && Guard(s, lim, e) && Connecting(s, id) && !Mine(e, id)
    ensures Sound(s, e) && Failover.Holds(s.router, s.owners[id].phase.row)
    ensures Performs(s, Next(s, cnf, lim, e), cnf, OpsOf(s, e))
    ensures OpsOf(s, e) != [] ==> Failover.Allowed(s.router, OpsOf(s, e)[0], s.owners[id].phase.row)
  {
    InvIsSound(s, cnf, lim, e);
    HolderMakesBusy(s, cnf, lim, id);
    StepPerforms(s, cnf, lim, e);
    OwnIsCounted(s, cnf, lim, id);
    if e.SyncFail? || e.Disconnected? || e.Redirect? {
      OthersAreCounted(s, cnf, lim, id, e.id);
    }
  }

  lemma ChosenOthers(s: System, cnf: Config, id: Id, d: Draw, holding: bool, mine: Id)
    requires WellFormed(s.router) && mine in s.owners && mine != id
    ensures var t := Chosen(s, cnf, id, d, holding);
            && mine in t.owners && t.owners[mine] == s.owners[mine]
            && mine in Left(t).owners && Left(t).owners[mine] == s.owners[mine]
  {
  }

  /** It also leaves the connecting thread where it is. */
  lemma OwnerStays(s: System, cnf: Config, lim: Limits, e: Event, id: Id)
    requires Guard(s, lim, e) && Sound(s, e) && Connecting(s, id) && !Mine(e, id)
    ensures id in Next(s, cnf, lim, e).owners && Next(s, cnf, lim, e).owners[id] == s.owners[id]
  {
    match e
    case ChooseAsync(other, d) => ChosenOthers(s, cnf, other, d, false, id);
    case StartSync(other, d) => ChosenOthers(s.(busy := s.busy + 1), cnf, other, d, true, id);
    case SyncFail(other, now, d) =>
      DstFailedWellFormed(Released(s.router, s.owners[other].phase.row), cnf, s.owners[other].phase.row, now);
      ChosenOthers(Undone(s, cnf, other, now), cnf, other, d, true, id);
    case Redirect(other, now, d) =>
      DisconnectWellFormed(s.router, cnf, s.owners[other].addr, true, now);
      ChosenOthers(LetGo(s, cnf, other, true, now), cnf, other, d, false, id);
    case _ =>
  }

  // ------------------------------------------------------------ stretches of runs

  /** The operations that events `j` to `k` perform, in order. */
  ghost function OpsBetween(run: seq<System>, events: seq<Event>, j: nat, k: nat): seq<Op>
    requires j <= k <= |events| && |run| == |events| + 1
    decreases k
  {
    if j == k then [] else OpsBetween(run, events, j, k - 1) + OpsOf(run[k - 1], events[k - 1])
  }

  /** From state `j` to state `k` of the run the thread that connects `id` takes no step,
      and nobody adds an address that a connection still owns. */
  ghost predicate Waits(run: seq<System>, events: seq<Event>, id: Id, j: nat, k: nat)
    requires j <= k <= |events| && |run| == |events| + 1
  {
    && Connecting(run[j], id)
    && (forall m {:trigger events[m]} :: 0 <= m < k ==> !ReAdds(run[m], events[m]))
    && (forall m {:trigger events[m]} :: j <= m < k ==> !Mine(events[m], id))
  }

  /** The router at the end is the one at the start after those operations. */
  ghost predicate Followed(s: System, t: System, cnf: Config, ops: seq<Op>, id: Id)
    requires Inv(s.router, cnf)
  {
    && Connecting(s, id) && Connecting(t, id) && t.owners[id] == s.owners[id] && t.table == s.table
    && t.router == Failover.OthersRun(s.router, cnf, ops, s.owners[id].phase.row)
  }

  /** One more step of another thread. */
  lemma FollowedFurther(r: System, s: System, t: System, cnf: Config, lim: Limits, ops: seq<Op>, e: Event, id: Id)
    requires Inv(r.router, cnf) && Followed(r, s, cnf, ops, id)
    requires Healthy(s, cnf, lim) && Stepped(s, t, cnf, lim, e) && !Mine(e, id)
    ensures Followed(r, t, cnf, ops + OpsOf(s, e), id)
  {
    OthersPerform(s, cnf, lim, e, id);
    OwnerStays(s, cnf, lim, e, id);
    var more := OpsOf(s, e);
    if more == [] {
      assert ops + more == ops;
    } else {
      assert more == [more[0]] && (ops + more)[..|ops|] == ops && (ops + more)[|ops|] == more[0];
    }
  }

  lemma WaitsSoFar(run: seq<System>, events: seq<Event>, id: Id, j: nat, k: nat, m: nat)
    requires j <= m <= k <= |events| && |run| == |events| + 1 && Waits(run, events, id, j, k)
    ensures Waits(run, events, id, j, m)
  {
  }

  lemma HealthyAt(run: seq<System>, cnf: Config, lim: Limits, events: seq<Event>, id: Id, j: nat, k: nat, m: nat)
    requires Concurrency.IsRun(run, cnf, lim, events) && j <= k <= |events| && m <= k && Waits(run, events, id, j, k)
    ensures Healthy(run[m], cnf, lim)
  {
    NeverShort(run, cnf, lim, events, m);
  }

  /** The stretch up to event `k`, as the connect loop sees it. */
  ghost predicate StretchOk(run: seq<System>, cnf: Config, events: seq<Event>, id: Id, j: nat, k: nat)
    requires j <= k <= |events| && |run| == |events| + 1
  {
    Inv(run[j].router, cnf) && Followed(run[j], run[k], cnf, OpsBetween(run, events, j, k), id)
  }

  lemma StretchStarts(run: seq<System>, cnf: Config, lim: Limits, events: seq<Event>, id: Id, j: nat)
    requires Concurrency.IsRun(run, cnf, lim, events) && j <= |events| && Waits(run, events, id, j, j)
    ensures StretchOk(run, cnf, events, id, j, j)
  {
    HealthyAt(run, cnf, lim, events, id, j, j, j);
  }

  lemma StretchStep(run: seq<System>, cnf: Config, lim: Limits, events: seq<Event>, id: Id, j: nat, k: nat)
    requires Concurrency.IsRun(run, cnf, lim, events) && j <= k < |events| && Waits(run, events, id, j, k + 1)
    requires StretchOk(run, cnf, events, id, j, k)
    ensures StretchOk(run, cnf, events, id, j, k + 1)
  {
    HealthyAt(run, cnf, lim, events, id, j, k + 1, k);
    var e := events[k];
    FollowedFurther(run[j], run[k], run[k + 1], cnf, lim, OpsBetween(run, events, j, k), e, id);
  }

  /** Over any stretch of a run through which a thread waits for its connect, other threads
      do to the router what the connect loop assumes of them: a sequence of allowed
      operations, with no row moved. */
  lemma {:induction false} StretchIsOthers(run: seq<System>, cnf: Config, lim: Limits, events: seq<Event>,
                                           id: Id, j: nat, k: nat)
    requires Concurrency.IsRun(run, cnf, lim, events) && j <= k <= |events| && Waits(run, events, id, j, k)
    ensures StretchOk(run, cnf, events, id, j, k)
    decreases k
  {
    WaitsSoFar(run, events, id, j, k, j);
    StretchStarts(run, cnf, lim, events, id, j);
    var m := j;
    while m < k
      invariant j <= m <= k && StretchOk(run, cnf, events, id, j, m)
    {
      WaitsSoFar(run, events, id, j, k, m + 1);
      StretchStep(run, cnf, lim, events, id, j, m);
      m := m + 1;
    }
  }
}
