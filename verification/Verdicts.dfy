/** What the backends' reports come to: for every report, the row the router has after
    the pass and the entry the watchdog keeps; and whose word counts for how long. */
module Verdicts {
  import opened RouterState
  import opened RouterInvariant
  import opened Watchdog

  // --------------------------------------------------- taking over a result

  /** A fresh READY result moves the latency to the mean of one part of the new sample
      and `lf` parts of the old value; any other result keeps it.  Failures to find the
      destination are counted, and nothing else about the entry changes. */
  lemma CopiedIs(e: Watched, res: Check, lf: nat)
    ensures var c := Copied(e, res, lf);
            && (if res.ready && res.state.Ready?
                then (lf + 1) as real * c.result.latency == res.latency + lf as real * e.result.latency
                else c.result.latency == e.result.latency)
            && c.result.state == res.state && c.result.ready == res.ready
            && c.failCount == e.failCount + (if res == Check(NotFound, res.latency, true) then 1 else 0)
            && c == e.(result := c.result, failCount := c.failCount)
  {
    var sum, n := res.latency + e.result.latency * lf as real, (lf + 1) as real;
    assert sum / n * n == sum;
  }

  /** The latency that weights are scaled by is the largest of a fresh entry, or zero
      when there is none. */
  lemma {:induction false} MaxLatIsLargest(dst: seq<Watched>, n: nat)
    requires n <= |dst|
    ensures forall i :: 0 <= i < n && Fresh(dst[i]) ==> dst[i].result.latency <= MaxLat(dst, n)
    ensures MaxLat(dst, n) == 0.0 || exists i :: 0 <= i < n && Fresh(dst[i]) && dst[i].result.latency == MaxLat(dst, n)
  {
    if n > 0 {
      MaxLatIsLargest(dst, n - 1);
      var m := MaxLat(dst, n - 1);
      if MaxLat(dst, n) == m {
        if m != 0.0 {
          var i :| 0 <= i < n - 1 && Fresh(dst[i]) && dst[i].result.latency == m;
          assert Fresh(dst[i]);
        }
      } else {
        assert Fresh(dst[n - 1]);
      }
    }
  }

  // -------------------------------------------------------------- one visit

  /** `a` is within a tenth of `b`. */
  predicate Near(a: real, b: real) {
    0.9 * b <= a <= 1.1 * b
  }

  function ConnsOf(row: Option<Row>): nat {
    if row.Some? then row.value.conns else 0
  }

  /** Weights are scaled by latency in this pass. */
  predicate Scales(lat: real, lf: nat) {
    lat > 0.0 && lf > 0
  }

  /** The weight a READY destination ends up with: its old one if that is within a tenth
      of the right one, otherwise the right one, which is the configured weight, or in
      a pass that scales the one whose product with the entry's latency is the
      configured weight times the largest latency. */
  ghost predicate RightWeight(e: Watched, lat: real, lf: nat, w: real) {
    if Scales(lat, lf) then
      var l, want := e.result.latency, e.config * lat;
      if want > 0.0 && Near(e.weight * l, want) then w == e.weight else w * l == want
    else if e.config > 0.0 && Near(e.weight, e.config) then w == e.weight else w == e.config
  }

  /** The router's row for an entry after a visit, by what its backend reported. */
  ghost predicate RowFollows(e: Watched, lat: real, lf: nat, before: Option<Row>, after: Option<Row>) {
    if !e.result.ready then
      after == if before.Some? then Some(Row(0.0, before.value.conns)) else None
    else
      match e.result.state
      case NotFound => after == None
      case NotReady => after == None
      case Avoid => after == Some(Row(0.0, ConnsOf(before)))
      case Ready => after.Some? && after.value.conns == ConnsOf(before) && RightWeight(e, lat, lf, after.value.weight)
  }

  lemma ToldElsewhere(e: Watched, lat: real, lf: nat, m: map<Addr, Row>, a: Addr)
    requires LatencyOk(e, lf) && a != e.addr
    ensures Get(Told(m, e, lat, lf), a) == Get(m, a)
  {
  }

  /** When the router is told of a positive weight: unless the old one is near it. */
  lemma TellsUnlessNear(prior: real, target: real)
    requires target > 0.0
    ensures Tells(prior, target) <==> !Near(prior, target)
  {
    var q := prior / target;
    assert q * target == prior;
    FactorNear(q, target);
  }

  lemma FactorNear(q: real, n: real)
    requires n > 0.0
    ensures Near(q * n, n) <==> 0.9 <= q <= 1.1
  {
    assert q < 0.9 ==> q * n < 0.9 * n;
    assert q >= 0.9 ==> q * n >= 0.9 * n;
    assert q > 1.1 ==> q * n > 1.1 * n;
    assert q <= 1.1 ==> q * n <= 1.1 * n;
  }

  /** Multiplying through by a positive latency. */
  lemma NearScaled(a: real, b: real, l: real)
    requires l > 0.0
    ensures Near(a, b) <==> Near(a * l, b * l)
    ensures b > 0.0 <==> b * l > 0.0
  {
    assert (0.9 * b) * l == 0.9 * (b * l) && (1.1 * b) * l == 1.1 * (b * l);
    Monotone(0.9 * b, a, l);
    Monotone(a, 1.1 * b, l);
    Monotone(b, 0.0, l);
  }

  lemma Monotone(a: real, b: real, l: real)
    requires l > 0.0
    ensures a <= b <==> a * l <= b * l
  {
    assert a <= b ==> (b - a) * l >= 0.0;
    assert a > b ==> (a - b) * l > 0.0;
  }

  /** Settling on the computed weight of a READY entry. */
  lemma TargetIsRight(e: Watched, lat: real, lf: nat, target: real, w: real)
    requires Fresh(e) && LatencyOk(e, lf) && e.config >= 0.0
    requires if Scales(lat, lf) then target * e.result.latency == e.config * lat else target == e.config
    requires w == if target > 0.0 && Near(e.weight, target) then e.weight else target
    ensures RightWeight(e, lat, lf, w)
  {
    if Scales(lat, lf) {
      NearScaled(e.weight, target, e.result.latency);
    }
  }

  lemma ReadyTarget(e: Watched, lat: real, lf: nat)
    requires Fresh(e) && LatencyOk(e, lf) && Recorded(e) && lat >= 0.0
    ensures var target := NewWeight(e, lat, lf);
            && target >= 0.0
            && if Scales(lat, lf) then target * e.result.latency == e.config * lat else target == e.config
  {
    if Scales(lat, lf) {
      Quotient(e.config, lat, e.result.latency);
      Undivide(e.config * lat, e.result.latency);
    }
  }

  lemma Undivide(a: real, l: real)
    requires l > 0.0
    ensures a / l * l == a
  {
  }

  /** The row and the recorded weight of a READY entry. */
  lemma ReadyVisit(e: Watched, lat: real, lf: nat, m: map<Addr, Row>)
    requires LatencyOk(e, lf) && Recorded(e) && Agrees(e, m) && lat >= 0.0 && Fresh(e)
    ensures var s, m' := Settled(e, lat, lf, e.addr in m), Told(m, e, lat, lf);
            Agrees(s, m') && e.addr in m' && RowFollows(e, lat, lf, Get(m, e.addr), Get(m', e.addr))
  {
    var target := NewWeight(e, lat, lf);
    ReadyTarget(e, lat, lf);
    if target > 0.0 { TellsUnlessNear(e.weight, target); }
    TargetIsRight(e, lat, lf, target, Settled(e, lat, lf, e.addr in m).weight);
  }

  /** One visit to an entry that agreed with the router: AVOID holds the destination at
      weight zero with its connections, NOTREADY and NOTFOUND unlist it and record it
      at minus one, READY lists it at the right weight, silence holds it; the entry
      agrees with the router again and nothing else about it changes but the state
      shown for one that was silent. */
  lemma VisitFollows(e: Watched, lat: real, lf: nat, m: map<Addr, Row>)
    requires LatencyOk(e, lf) && Recorded(e) && Agrees(e, m) && lat >= 0.0
    ensures var s, m' := Settled(e, lat, lf, e.addr in m), Told(m, e, lat, lf);
            && RowFollows(e, lat, lf, Get(m, e.addr), Get(m', e.addr))
            && s.weight == (if e.addr in m' then m'[e.addr].weight else -1.0)
            && (e.result.ready ==> s == e.(weight := s.weight))
            && (!e.result.ready ==>
                 && s == e.(weight := s.weight, result := e.result.(state := s.result.state))
                 && s.result.state == if e.addr in m then Worst(e.result.state, Avoid)
                                      else Worst(e.result.state, NotReady))
  {
    if Fresh(e) {
      ReadyVisit(e, lat, lf, m);
    }
  }

  /** States in the order of the source's enumeration. */
  function Rank(h: Health): nat {
    match h
    case NotFound => 0
    case NotReady => 1
    case Avoid => 2
    case Ready => 3
  }

  function Worst(a: Health, b: Health): Health {
    if Rank(a) <= Rank(b) then a else b
  }

  // ------------------------------------------------------------- whole pass

  /** What the router is told of an entry depends on its own row only. */
  lemma ToldLocally(e: Watched, lat: real, lf: nat, m: map<Addr, Row>, m1: map<Addr, Row>)
    requires LatencyOk(e, lf) && Get(m, e.addr) == Get(m1, e.addr)
    ensures Get(Told(m, e, lat, lf), e.addr) == Get(Told(m1, e, lat, lf), e.addr)
    ensures e.addr in m <==> e.addr in m1
  {
    assert (Get(m, e.addr).Some? <==> e.addr in m) && (Get(m1, e.addr).Some? <==> e.addr in m1);
  }

  lemma {:induction false} RowAfterPass(dst: seq<Watched>, joined: Addr -> bool, lat: real, lf: nat,
                                        m: map<Addr, Row>, i: nat, j: nat)
    requires i <= j < |dst| && AllOk(dst, lf) && Unique(dst) && !joined(dst[j].addr)
    ensures Get(RowsAfter(dst, joined, lat, lf, m, i), dst[j].addr) == Get(Told(m, dst[j], lat, lf), dst[j].addr)
    decreases |dst| - i
  {
    var m1 := RowsAfter(dst, joined, lat, lf, m, i + 1);
    if i == j {
      RowsElsewhere(dst, joined, lat, lf, m, i + 1, dst[j].addr);
      ToldLocally(dst[j], lat, lf, m, m1);
    } else {
      RowAfterPass(dst, joined, lat, lf, m, i + 1, j);
      ToldElsewhere(dst[i], lat, lf, m1, dst[j].addr);
    }
  }

  /** In every pass: a watched entry that agreed with the router and whose thread has
      not ended stays watched, and its row follows its backend's report. */
  lemma PassFollows(d: seq<Watched>, m: map<Addr, Row>, lf: nat, reports: Addr -> Check, joined: Addr -> bool,
                    d': seq<Watched>, m': map<Addr, Row>, j: nat) returns (s: Watched)
    requires Sane(d, lf) && Measured(reports, lf) && CollectStep(d, m, lf, reports, joined, d', m')
    requires j < |d| && Agrees(d[j], m) && !joined(d[j].addr)
    ensures var c := Copies(d, reports, lf);
            && RowFollows(c[j], MaxLat(c, |c|), lf, Get(m, d[j].addr), Get(m', d[j].addr))
            && s in d' && s.addr == d[j].addr && Agrees(s, m')
            && s.config == d[j].config && s.explicit == d[j].explicit && s.quit == d[j].quit
            && s.result.latency == c[j].result.latency && s.failCount == c[j].failCount
  {
    var c := Copies(d, reports, lf);
    var lat := MaxLat(c, |c|);
    CopiesSane(d, reports, lf);
    MaxLatNotNegative(c, |c|);
    RowAfterPass(c, joined, lat, lf, m, 0, j);
    VisitFollows(c[j], lat, lf, m);
    s := Settled(c[j], lat, lf, c[j].addr in m);
    assert IsSurvivor(c, joined, lat, lf, m, s);
    PassMembers(c, joined, lat, lf, m, d', s);
    PassAgrees(c, joined, lat, lf, m, 0, j);
  }

  // --------------------------------------------------------- whose word counts

  /** What a change does to the entry of the address it names.  A weight: the entry is
      kept alive, and the weight counts if it is set explicitly or if none was before.
      A removal: the thread is told to quit by an explicit one, or by any if the
      destination was only discovered; an order to quit is never taken back. */
  ghost predicate ChangeObeyed(e: Watched, weight: real, explicit: bool, f: Watched) {
    if weight >= 0.0 then
      && f == e.(failCount := 0, explicit := f.explicit, config := f.config)
      && (explicit ==> f.explicit && f.config == weight)
      && (!explicit && e.explicit ==> f.explicit && f.config == e.config)
      && (!explicit && !e.explicit ==> !f.explicit && f.config == weight)
    else
      && f == e.(quit := f.quit)
      && (explicit || !e.explicit ==> f.quit)
      && (!explicit && e.explicit ==> f.quit == e.quit)
      && (e.quit ==> f.quit)
  }

  /** Every change: the entry it names obeys it, or is taken up, not listed yet and with
      no failure; every other entry stays in its place as it was. */
  lemma ChangesAreObeyed(d: seq<Watched>, a: Addr, weight: real, explicit: bool, errn: nat, d': seq<Watched>, lf: nat)
    requires Sane(d, lf) && ChangeStep(d, a, weight, explicit, errn, d')
    ensures |d| <= |d'| <= |d| + 1
    ensures forall j :: 0 <= j < |d| ==>
              if d[j].addr == a then ChangeObeyed(d[j], weight, explicit, d'[j]) else d'[j] == d[j]
    ensures |d'| > |d| <==> !Watches(d, a) && weight >= 0.0 && errn == 0
    ensures |d'| > |d| ==>
              var e := d'[|d|];
              && e.addr == a && e.config == weight && e.weight == -1.0 && e.explicit == explicit && !e.quit
              && e.failCount == 0 && !e.result.ready && e.result.latency == 0.0 && e.result.state.NotFound?
  {
    if Watches(d, a) {
      var r :| 0 <= r < |d| && d[r].addr == a && d' == d[r := Referred(d[r], weight, explicit)];
      assert forall j :: 0 <= j < |d| && d[j].addr == a ==> j == r;
    }
  }

  /** The event is no explicit change of `a`, and the thread that watches it has not
      ended. */
  ghost predicate LeavesExplicit(ev: DogEvent, a: Addr) {
    && (ev.Changes? && ev.a == a ==> !ev.explicit)
    && (ev.Collects? ==> !ev.joined(a))
  }

  /** `f` is the same destination under the same orders as `e`. */
  ghost predicate SameOrders(e: Watched, f: Watched) {
    f.addr == e.addr && f.config == e.config && f.explicit == e.explicit && f.quit == e.quit
  }

  lemma ExplicitStep(s: DogState, lf: nat, ev: DogEvent, t: DogState, e: Watched) returns (f: Watched)
    requires Sane(s.dst, lf) && DogNext(s, lf, ev, t) && e in s.dst && e.explicit && LeavesExplicit(ev, e.addr)
    ensures f in t.dst && SameOrders(e, f)
  {
    var j :| 0 <= j < |s.dst| && s.dst[j] == e;
    match ev
    case Changes(a, weight, explicit, errn) =>
      ChangesAreObeyed(s.dst, a, weight, explicit, errn, t.dst, lf);
      f := t.dst[j];
    case Collects(reports, joined) => f := PassOrders(s.dst, s.rows, lf, reports, joined, t.dst, t.rows, j);
    case Traffic => f := e;
  }

  lemma PassOrders(d: seq<Watched>, m: map<Addr, Row>, lf: nat, reports: Addr -> Check, joined: Addr -> bool,
                   d': seq<Watched>, m': map<Addr, Row>, j: nat) returns (f: Watched)
    requires CollectStep(d, m, lf, reports, joined, d', m') && j < |d| && !joined(d[j].addr)
    ensures f in d' && SameOrders(d[j], f)
  {
    var c := Copies(d, reports, lf);
    var lat := MaxLat(c, |c|);
    f := Settled(c[j], lat, lf, c[j].addr in m);
    assert IsSurvivor(c, joined, lat, lf, m, f);
    PassMembers(c, joined, lat, lf, m, d', f);
  }

  /** In every run of the watchdog a destination set explicitly stays watched, at the
      weight set and with the same order to quit or not, whatever is discovered about it,
      until the next explicit change of it or the end of its thread. */
  lemma {:induction false} ExplicitOutlives(run: seq<DogState>, lf: nat, events: seq<DogEvent>, k: nat, m: nat,
                                            e: Watched) returns (f: Watched)
    requires IsDogRun(run, lf, events) && k <= m < |run| && e in run[k].dst && e.explicit
    requires forall j {:trigger events[j]} :: k <= j < m ==> LeavesExplicit(events[j], e.addr)
    ensures f in run[m].dst && SameOrders(e, f)
    decreases m
  {
    f := e;
    if k < m {
      f := ExplicitOutlives(run, lf, events, k, m - 1, e);
      DogRunKeeps(run, lf, events, m - 1);
      var ev := events[m - 1];
      assert DogNext(run[m - 1], lf, ev, run[m]);
      f := ExplicitStep(run[m - 1], lf, ev, run[m], f);
    }
  }
}
