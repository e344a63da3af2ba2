/** The probe contexts behind the router's rows.  Each watched entry owns a context, a row
    that the watchdog adds to the router keeps a pointer to it, and reaping an entry frees
    its context while the row stays. */
module ProbeContexts {
  import opened RouterState
  import opened RouterInvariant
  import opened Watchdog

  /** Contexts by number: those the watched entries own, and those the rows point to. */
  datatype Contexts = Contexts(own: map<Addr, nat>, held: map<Addr, nat>, issued: nat)

  const NONE: Contexts := Contexts(map[], map[], 0)

  ghost function Addresses(dst: seq<Watched>): (r: set<Addr>)
    ensures forall a :: a in r <==> Watches(dst, a)
  {
    set e | e in dst :: e.addr
  }

  /** A new entry gets a new context, a reaped one's is freed; a row keeps the context it
      was added with until it is removed. */
  ghost function After(x: Contexts, s: DogState, t: DogState): Contexts {
    Contexts(map a | a in Addresses(t.dst) :: if a in x.own then x.own[a] else x.issued,
             map a | a in t.rows && (if a in s.rows then a in x.held else a in x.own) ::
               if a in s.rows then x.held[a] else x.own[a],
             x.issued + 1)
  }

  /** Contexts are owned by the watched entries, and only listed rows point to any. */
  ghost predicate Tied(s: DogState, x: Contexts) {
    x.own.Keys == Addresses(s.dst) && x.held.Keys <= s.rows.Keys
  }

  /** Every context that a row points to belongs to the entry that watches its address. */
  ghost predicate Backed(x: Contexts) {
    forall a :: a in x.held ==> a in x.own && x.own[a] == x.held[a]
  }

  /** The pass reaps an entry whose row is still listed. */
  ghost predicate ReapsHeld(s: DogState, x: Contexts, ev: DogEvent) {
    ev.Collects? && exists a :: a in x.held && Watches(s.dst, a) && ev.joined(a)
  }

  /** What a step does to the watched addresses and the rows. */
  ghost predicate Moves(s: DogState, ev: DogEvent, t: DogState) {
    && (forall a :: Watches(s.dst, a) && !(ev.Collects? && ev.joined(a)) ==> Watches(t.dst, a))
    && (forall a :: ev.Collects? && ev.joined(a) ==> !Watches(t.dst, a))
    && (forall a :: !Watches(t.dst, a) ==> (a in t.rows <==> a in s.rows))
    && (!ev.Collects? ==> t.rows.Keys == s.rows.Keys)
  }

  lemma ChangeMoves(s: DogState, lf: nat, ev: DogEvent, t: DogState)
    requires ev.Changes? && DogNext(s, lf, ev, t)
    ensures Moves(s, ev, t)
  {
    forall a | Watches(s.dst, a)
      ensures Watches(t.dst, a)
    {
      var i :| 0 <= i < |s.dst| && s.dst[i].addr == a;
      assert t.dst[i].addr == a;
    }
  }

  lemma CollectMoves(s: DogState, lf: nat, ev: DogEvent, t: DogState)
    requires Sane(s.dst, lf) && ev.Collects? && DogNext(s, lf, ev, t)
    ensures Moves(s, ev, t)
  {
    CollectEffect(s.dst, s.rows, lf, ev.reports, ev.joined, t.dst, t.rows);
    forall a | !Watches(t.dst, a)
      ensures a in t.rows <==> a in s.rows
    {
      assert Get(t.rows, a) == Get(s.rows, a);
      assert (Get(t.rows, a).Some? <==> a in t.rows) && (Get(s.rows, a).Some? <==> a in s.rows);
    }
  }

  lemma StepMoves(s: DogState, lf: nat, ev: DogEvent, t: DogState)
    requires Sane(s.dst, lf) && DogNext(s, lf, ev, t)
    ensures Moves(s, ev, t)
  {
    if ev.Changes? { ChangeMoves(s, lf, ev, t); } else if ev.Collects? { CollectMoves(s, lf, ev, t); }
  }

  /** A step leaves every context backed exactly when it reaps no entry whose row is
      listed. */
  lemma StepBacked(s: DogState, x: Contexts, ev: DogEvent, t: DogState)
    requires Tied(s, x) && Moves(s, ev, t)
    ensures Tied(t, After(x, s, t))
    ensures ReapsHeld(s, x, ev) ==> !Backed(After(x, s, t))
    ensures Backed(x) && !ReapsHeld(s, x, ev) ==> Backed(After(x, s, t))
  {
    var y := After(x, s, t);
    assert y.own.Keys == Addresses(t.dst);
    if ReapsHeld(s, x, ev) {
      var a :| a in x.held && Watches(s.dst, a) && ev.joined(a);
      assert a in y.held && a !in y.own;
    }
  }

  ghost predicate IsContextRun(run: seq<DogState>, xs: seq<Contexts>) {
    && |xs| == |run| > 0 && xs[0] == NONE
    && forall k :: 0 <= k < |run| - 1 ==> xs[k + 1] == After(xs[k], run[k], run[k + 1])
  }

  lemma {:induction false} RunIsTied(run: seq<DogState>, lf: nat, events: seq<DogEvent>, xs: seq<Contexts>, k: nat)
    requires IsDogRun(run, lf, events) && IsContextRun(run, xs) && k < |run|
    ensures Tied(run[k], xs[k])
    ensures (forall j {:trigger events[j]} :: 0 <= j < k ==> !ReapsHeld(run[j], xs[j], events[j])) ==> Backed(xs[k])
  {
    if k == 0 {
      assert Addresses(run[0].dst) == {};
    } else {
      RunIsTied(run, lf, events, xs, k - 1);
      StepInRun(run, lf, events, xs, k - 1);
    }
  }

  lemma StepInRun(run: seq<DogState>, lf: nat, events: seq<DogEvent>, xs: seq<Contexts>, k: nat)
    requires IsDogRun(run, lf, events) && IsContextRun(run, xs) && k < |events| && Tied(run[k], xs[k])
    ensures Tied(run[k + 1], xs[k + 1])
    ensures ReapsHeld(run[k], xs[k], events[k]) ==> !Backed(xs[k + 1])
    ensures Backed(xs[k]) && !ReapsHeld(run[k], xs[k], events[k]) ==> Backed(xs[k + 1])
  {
    DogRunKeeps(run, lf, events, k);
    var ev := events[k];
    StepMoves(run[k], lf, ev, run[k + 1]);
    StepBacked(run[k], xs[k], ev, run[k + 1]);
  }

  /** Through a whole run every probe context that a row points to belongs to a watched
      entry if and only if no entry is ever reaped whose row is still listed. */
  lemma BackedRuns(run: seq<DogState>, lf: nat, events: seq<DogEvent>, xs: seq<Contexts>)
    requires IsDogRun(run, lf, events) && IsContextRun(run, xs)
    ensures (forall k :: 0 <= k < |run| ==> Backed(xs[k])) <==>
            forall k {:trigger events[k]} :: 0 <= k < |events| ==> !ReapsHeld(run[k], xs[k], events[k])
  {
    if forall k {:trigger events[k]} :: 0 <= k < |events| ==> !ReapsHeld(run[k], xs[k], events[k]) {
      forall k | 0 <= k < |run| ensures Backed(xs[k]) { RunIsTied(run, lf, events, xs, k); }
    } else {
      var k :| 0 <= k < |events| && ReapsHeld(run[k], xs[k], events[k]);
      RunIsTied(run, lf, events, xs, k);
      StepInRun(run, lf, events, xs, k);
      assert !Backed(xs[k + 1]);
    }
  }

  /** It does happen: in the run of `ReapedThenAdded` the row outlives its context. */
  lemma ContextFreed() returns (run: seq<DogState>, events: seq<DogEvent>, xs: seq<Contexts>)
    ensures IsDogRun(run, 0, events) && IsContextRun(run, xs) && |run| == 5
    ensures !Backed(xs[4])
  {
    run, events := ReapedThenAdded();
    var x1 := After(NONE, run[0], run[1]);
    var x2 := After(x1, run[1], run[2]);
    var x3 := After(x2, run[2], run[3]);
    var x4 := After(x3, run[3], run[4]);
    xs := [NONE, x1, x2, x3, x4];
    Added(NONE, run[0], run[1], X);
    Listed(x1, run[1], run[2], X);
    Kept(x2, run[2], run[3], X);
    Kept(x3, run[3], run[4], X);
    assert X !in Addresses(run[4].dst);
  }

  lemma Added(x: Contexts, s: DogState, t: DogState, a: Addr)
    requires Watches(t.dst, a)
    ensures a in After(x, s, t).own
  {
  }

  lemma Listed(x: Contexts, s: DogState, t: DogState, a: Addr)
    requires a in x.own && a !in s.rows && a in t.rows
    ensures a in After(x, s, t).held
  {
  }

  lemma Kept(x: Contexts, s: DogState, t: DogState, a: Addr)
    requires a in x.held && a in s.rows && a in t.rows
    ensures a in After(x, s, t).held
  {
  }
}
