/** The router object: the loops of src/glb_router.c updating the table in place.
    Every method is one critical section (the mutex held throughout) and is
    proved to take the step that `RouterState` defines. */
module RouterObject {
  import opened RouterState

  class Router {
    const cnf: Config
    var dst: seq<Entry>
    var conns: int
    var next: nat
    var top: Option<nat>
    var ctx: Context
    var mapFailed: int
    var topFailed: int

    ghost function View(): (s: State)
      reads this
    {
      State(dst, conns, next, top, ctx, mapFailed, topFailed)
    }

    ghost predicate Valid()
      reads this
    {
      WellFormed(View())
    }

    constructor (cnf: Config)
      ensures Valid() && this.cnf == cnf
      ensures View() == State([], 0, 0, None, Context(0.0, 0, 0), 0, 0)
    {
      this.cnf := cnf;
      dst, conns, next, top := [], 0, 0, None;
      ctx, mapFailed, topFailed := Context(0.0, 0, 0), 0, 0;
    }

    method RefreshContext(now: int)
      requires Valid()
      modifies `ctx
      ensures Valid() && View() == UpdateCtx(old(View()), cnf, now)
    {
      ctx := ctx.(now := now);
      ctx := ctx.(retry := RetryInterval(cnf));
      if top.Some? && dst[top.value].weight >= EPS && GoodBase(dst[top.value], ctx) {
        ctx := ctx.(minWeight := dst[top.value].weight);
      } else {
        ctx := ctx.(minWeight := EPS);
      }
    }

    /** One scan that moves the top to every eligible row whose weight reaches
        the current top weight times 1 + eps. */
    method RedoTopInPlace()
      requires Valid()
      modifies `top, `ctx
      ensures Valid() && View() == RedoTop(old(View()))
    {
      var topWeight := ctx.minWeight * FACTOR;
      var i := 0;
      while i < |dst|
        invariant 0 <= i <= |dst|
        invariant Valid()
        invariant topWeight == ctx.minWeight * FACTOR
        invariant TopScan(View(), i) == TopScan(old(View()), 0)
      {
        if Good(dst[i], topWeight, ctx) {
          top := Some(i);
          ctx := ctx.(minWeight := dst[i].weight);
          topWeight := ctx.minWeight * FACTOR;
        }
        i := i + 1;
      }
    }

    /** Two passes: gather the eligible weights, then normalise them into a
        running sum. */
    method RedoMapInPlace()
      modifies `dst
      ensures View() == RedoMap(old(View()))
    {
      ghost var s := View();
      var total := GatherWeights();
      if total == 0.0 { return; }
      Normalise(s, total);
    }

    method GatherWeights() returns (total: real)
      modifies `dst
      ensures |dst| == |old(dst)| && total == GoodWeight(old(View()), |dst|)
      ensures forall k :: 0 <= k < |dst| ==> dst[k] == old(dst)[k].(share := OwnWeight(old(View()), k))
    {
      ghost var s := View();
      total := 0.0;
      var i := 0;
      while i < |dst|
        invariant 0 <= i <= |dst| == |s.dst|
        invariant total == GoodWeight(s, i)
        invariant forall k :: 0 <= k < i ==> dst[k] == s.dst[k].(share := OwnWeight(s, k))
        invariant forall k :: i <= k < |dst| ==> dst[k] == s.dst[k]
      {
        if Good(dst[i], ctx.minWeight, ctx) {
          total := total + dst[i].weight;
          dst := dst[i := dst[i].(share := dst[i].weight)];
        } else {
          dst := dst[i := dst[i].(share := 0.0)];
        }
        i := i + 1;
      }
    }

    method Normalise(ghost s: State, total: real)
      requires total != 0.0 && |dst| == |s.dst| && total == GoodWeight(s, |s.dst|)
      requires forall k :: 0 <= k < |dst| ==> dst[k] == s.dst[k].(share := OwnWeight(s, k))
      modifies `dst
      ensures |dst| == |s.dst| && forall k :: 0 <= k < |dst| ==> dst[k] == s.dst[k].(share := Share(s, k))
    {
      var m := 0.0;
      var i := 0;
      while i < |dst|
        invariant 0 <= i <= |dst| == |s.dst|
        invariant m == GoodWeight(s, i) / total
        invariant forall k :: 0 <= k < i ==> dst[k] == s.dst[k].(share := Share(s, k))
        invariant forall k :: i <= k < |dst| ==> dst[k] == s.dst[k].(share := OwnWeight(s, k))
      {
        AddFractions(OwnWeight(s, i), GoodWeight(s, i), total);
        dst := dst[i := dst[i].(share := dst[i].share / total + m)];
        m := dst[i].share;
        i := i + 1;
      }
    }

    method RefreshAll(now: int)
      requires Valid()
      modifies `ctx, `top, `dst
      ensures Valid() && View() == Refresh(old(View()), cnf, now)
    {
      RefreshWellFormed(View(), cnf, now);
      RefreshContext(now);
      if cnf.top { RedoTopInPlace(); }
      if UsesMap(cnf) { RedoMapInPlace(); }
    }

    method Find(a: Addr) returns (i: nat)
      ensures i == Index(dst, a)
    {
      i := 0;
      while i < |dst|
        invariant 0 <= i <= |dst|
        invariant IndexFrom(dst, a, i) == Index(dst, a)
      {
        if dst[i].addr == a { return; }
        i := i + 1;
      }
    }

    /** Adds, removes (negative weight) or re-weights a destination.  The caller
        is the one changing thread, past the wait for connecting threads. */
    method ApplyChange(c: Change) returns (r: int)
      requires Valid()
      modifies `dst, `conns, `next, `top, `ctx
      ensures Valid() && (View(), r) == ChangeDst(old(View()), cnf, c)
    {
      var i := Find(c.addr);
      if i == |dst| && c.weight < 0.0 { return -ENONET; }
      r := i;
      if i == |dst| {
        top := None;
        dst := dst + [Entry(c.addr, c.weight, Usage(c.weight, 0), c.junk, c.nowNs, 0, 0, c.probed)];
      } else if c.weight < 0.0 {
        top := None;
        conns := conns - dst[i].conns;
        if i + 1 < |dst| { dst := dst[i := dst[|dst| - 1]]; }
        dst := dst[..|dst| - 1];
        next := if |dst| > 0 then next % |dst| else 0;
        RemovedWellFormed(old(View()), i);
        assert dst == Removed(old(View()), i).dst;
      } else if dst[i].weight != c.weight {
        dst := dst[i := dst[i].(weight := c.weight)];
        dst := dst[i := dst[i].(usage := Usage(dst[i].weight, dst[i].conns))];
        assert dst == Reweighted(old(View()), i, c.weight).dst;
      } else {
        return;
      }
      RefreshAll(c.now);
    }

    method PickLeast(probe: nat -> Probe) returns (r: Option<nat>)
      requires Valid()
      modifies `dst
      ensures Valid() && (View(), r) == ChooseLeast(old(View()), cnf.extra, probe)
    {
      r := None;
      var maxUsage := 0.0;
      var i := 0;
      while i < |dst|
        invariant 0 <= i <= |dst|
        invariant r.Some? ==> r.value < |dst| && maxUsage == dst[r.value].usage
        invariant r.None? ==> maxUsage == 0.0
        invariant LeastScan(View(), i, r) == LeastScan(View(), 0, None)
      {
        if dst[i].usage > maxUsage && Good(dst[i], ctx.minWeight, ctx) {
          r := Some(i);
          maxUsage := dst[i].usage;
        }
        i := i + 1;
      }
      if r.Some? {
        var ok := Check(r.value, probe(r.value));
        if !ok { r := None; }
      }
    }

    /** Runs the extra probe on row `i` when one is due. */
    method Check(i: nat, p: Probe) returns (ok: bool)
      requires i < |dst|
      modifies `dst
      ensures View() == CheckAt(old(View()), i, cnf.extra, p)
      ensures ok == CheckPasses(old(dst[i]), cnf.extra, p)
    {
      if cnf.extra == 0 || !dst[i].probed || p.started - dst[i].checked < cnf.extra {
        assert dst == dst[i := dst[i]];
        return true;
      }
      if p.ready {
        dst := dst[i := dst[i].(checked := p.stamp)];
      } else {
        dst := dst[i := dst[i].(failed := p.failedAt)];
      }
      ok := p.ready;
    }

    method PickRound(probe: nat -> Probe) returns (r: Option<nat>)
      requires Valid()
      modifies `dst, `next
      ensures Valid() && (View(), r) == ChooseRound(old(View()), cnf.extra, probe)
    {
      var offset := 0;
      while offset < |dst|
        invariant 0 <= offset <= |dst| == |old(dst)|
        invariant Valid()
        invariant RoundScan(View(), |dst| - offset, cnf.extra, probe)
               == RoundScan(old(View()), |dst|, cnf.extra, probe)
      {
        var i := next;
        next := (next + 1) % |dst|;
        if Good(dst[i], ctx.minWeight, ctx) {
          var ok := Check(i, probe(i));
          if ok { return Some(i); }
        }
        offset := offset + 1;
      }
      r := None;
    }

    method PickByHint(hint: Hint, probe: nat -> Probe) returns (r: Option<nat>)
      requires Valid()
      modifies `dst, `mapFailed
      ensures Valid() && (View(), r) == ChooseHint(old(View()), cnf, hint, probe)
    {
      if |dst| == 0 { return None; }
      if UsesMap(cnf) && mapFailed != 0 && ctx.now - mapFailed > ctx.retry {
        RedoMapInPlace();
        mapFailed := 0;
      }
      var m := hint as real / 4294967295.0 - DIV_PROT;
      ghost var s := View();
      var i := 0;
      while i < |dst|
        invariant 0 <= i <= |dst| == |s.dst|
        invariant Valid()
        invariant HintScan(View(), i, m, cnf.extra, probe) == HintScan(s, 0, m, cnf.extra, probe)
      {
        if m < dst[i].share {
          var ok := Check(i, probe(i));
          if ok { return Some(i); }
        }
        i := i + 1;
      }
      r := None;
    }

    method ChooseDst(d: Draw) returns (r: Option<nat>)
      requires Valid()
      modifies this
      ensures Valid() && (View(), r) == Choose(old(View()), cnf, d)
    {
      PreparedWellFormed(View(), cnf, d.now);
      RefreshContext(d.now);
      if cnf.top && topFailed != 0 && ctx.now - topFailed > ctx.retry {
        RedoTopInPlace();
        topFailed := 0;
      }
      match cnf.policy {
        case Least => r := PickLeast(d.probe);
        case Round => r := PickRound(d.probe);
        case Single => r := if top.Some? && Good(dst[top.value], EPS, ctx) then top else None;
        case Random => r := PickByHint(d.random, d.probe);
        case Source => r := PickByHint(d.hint, d.probe);
      }
      if r.Some? { Acquire(r.value); }
    }

    method Acquire(i: nat)
      requires Valid() && i < |dst|
      modifies `dst, `conns
      ensures Valid() && View() == Acquired(old(View()), i)
    {
      dst := dst[i := dst[i].(conns := dst[i].conns + 1)];
      conns := conns + 1;
      dst := dst[i := dst[i].(usage := Usage(dst[i].weight, dst[i].conns))];
    }

    method MarkFailed(i: nat, now: int)
      requires Valid() && i < |dst|
      modifies this
      ensures Valid() && View() == DstFailed(old(View()), cnf, i, now)
    {
      DstFailedWellFormed(View(), cnf, i, now);
      ctx := ctx.(now := now);
      ctx := ctx.(retry := RetryInterval(cnf));
      var wasGood := Good(dst[i], ctx.minWeight, ctx);
      dst := dst[i := dst[i].(failed := ctx.now)];
      if wasGood {
        if top == Some(i) {
          ctx := ctx.(minWeight := EPS);
          RedoTopInPlace();
          topFailed := dst[i].failed;
        }
        if UsesMap(cnf) {
          RedoMapInPlace();
          mapFailed := dst[i].failed;
        }
      }
    }

    method Release(i: nat)
      requires Valid() && i < |dst| && dst[i].conns > 0
      modifies `dst, `conns
      ensures Valid() && View() == Released(old(View()), i)
    {
      dst := dst[i := dst[i].(conns := dst[i].conns - 1)];
      conns := conns - 1;
      dst := dst[i := dst[i].(usage := Usage(dst[i].weight, dst[i].conns))];
    }

    method DisconnectDst(a: Addr, failed: bool, now: int) returns (i: nat)
      requires Valid()
      requires Index(dst, a) < |dst| ==> dst[Index(dst, a)].conns > 0
      modifies this
      ensures Valid() && (View(), i) == Disconnect(old(View()), cnf, a, failed, now)
    {
      i := Find(a);
      if i < |dst| {
        Release(i);
        if failed { MarkFailed(i, now); }
      }
    }

    /** Atomically marks `a` unavailable and finds another destination. */
    method ChooseDstAgain(a: Addr, now: int, d: Draw) returns (r: Option<nat>)
      requires Valid()
      requires Index(dst, a) < |dst| ==> dst[Index(dst, a)].conns > 0
      modifies this
      ensures Valid() && (View(), r) == ChooseAgain(old(View()), cnf, a, now, d)
    {
      DisconnectWellFormed(View(), cnf, a, true, now);
      var _ := DisconnectDst(a, true, now);
      r := ChooseDst(d);
    }
  }

  lemma AddFractions(a: real, b: real, total: real)
    requires total != 0.0
    ensures a / total + b / total == (b + a) / total
  {
  }
}
