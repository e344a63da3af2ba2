/** The watchdog's collection pass (src/glb_wdog.c): smooth the measured latencies,
    compute new weights, reap finished entries by moving the last one over them,
    and keep the router's table in step. */
module Watchdog {
  import opened RouterState
  import opened RouterInvariant
  import opened RouterObject

  datatype Health = NotFound | NotReady | Avoid | Ready

  datatype Check = Check(state: Health, latency: real, ready: bool)

  datatype Watched = Watched(
    addr: Addr,
    config: real,      // configured weight
    weight: real,      // weight last given to the router; negative: not listed
    result: Check,
    failCount: int,
    explicit: bool,
    quit: bool)        // its backend thread has been told to quit

  const TOLERANCE: real := 0.1

  // --------------------------------------------------------------- latency

  /** Weighted mean of the new sample and `lf` parts of the old value. */
  function Smooth(prior: real, sample: real, lf: nat): real {
    (sample + prior * lf as real) / (lf + 1) as real
  }

  function Max(a: real, b: real): real { if a < b then b else a }

  lemma SmoothBetween(prior: real, sample: real, lf: nat)
    requires prior >= 0.0 && sample >= 0.0
    ensures 0.0 <= Smooth(prior, sample, lf) <= Max(prior, sample)
    ensures sample > 0.0 ==> Smooth(prior, sample, lf) > 0.0
  {
    var n, m := lf as real, Max(prior, sample);
    Products(prior, m, n);
    DivBound(sample + prior * n, m, n + 1.0);
  }

  lemma Products(a: real, b: real, n: real)
    requires 0.0 <= a <= b && n >= 0.0
    ensures 0.0 <= a * n <= b * n && b * (n + 1.0) == b * n + b
  {
  }

  lemma DivBound(a: real, m: real, c: real)
    requires c > 0.0 && 0.0 <= a <= m * c
    ensures 0.0 <= a / c <= m && (a > 0.0 ==> a / c > 0.0)
  {
    var q := a / c;
    assert q * c == a;
  }

  function Largest(samples: seq<real>): real {
    if samples == [] then 0.0 else Max(Largest(samples[..|samples| - 1]), samples[|samples| - 1])
  }

  function Smoothed(samples: seq<real>, lf: nat): real {
    if samples == [] then 0.0
    else Smooth(Smoothed(samples[..|samples| - 1], lf), samples[|samples| - 1], lf)
  }

  /** Over any run of samples the smoothed latency stays between zero and the
      largest sample seen. */
  lemma {:induction false} LatencyBounds(samples: seq<real>, lf: nat)
    requires forall i :: 0 <= i < |samples| ==> samples[i] >= 0.0
    ensures 0.0 <= Smoothed(samples, lf) <= Largest(samples)
    decreases |samples|
  {
    if samples != [] {
      var rest := samples[..|samples| - 1];
      LatencyBounds(rest, lf);
      SmoothBetween(Smoothed(rest, lf), samples[|samples| - 1], lf);
    }
  }

  // ------------------------------------------------------------- one entry

  /** `wdog_copy_result`: take over the backend's result, keeping or smoothing the
      latency, and count failures. */
  function Copied(e: Watched, res: Check, lf: nat): Watched {
    var lat := if res.ready && res.state.Ready? then Smooth(e.result.latency, res.latency, lf) else e.result.latency;
    e.(result := res.(latency := lat),
       failCount := e.failCount + (if res.ready && res.state.NotFound? then 1 else 0))
  }

  /** An entry after taking over a run of results. */
  function CopiedAll(e: Watched, results: seq<Check>, lf: nat): Watched {
    if results == [] then e
    else Copied(CopiedAll(e, results[..|results| - 1], lf), results[|results| - 1], lf)
  }

  /** The latencies that count: those of fresh READY results. */
  function Samples(results: seq<Check>): seq<real> {
    if results == [] then []
    else
      var last := results[|results| - 1];
      Samples(results[..|results| - 1]) + (if last.ready && last.state.Ready? then [last.latency] else [])
  }

  /** The latency kept with an entry is the smoothed value of those samples. */
  lemma {:induction false} EntryLatency(e: Watched, results: seq<Check>, lf: nat)
    requires e.result.latency == 0.0
    ensures CopiedAll(e, results, lf).result.latency == Smoothed(Samples(results), lf)
    decreases |results|
  {
    if results != [] {
      var rest, last := results[..|results| - 1], results[|results| - 1];
      EntryLatency(e, rest, lf);
      var s := Samples(rest) + [last.latency];
      assert s[..|s| - 1] == Samples(rest);
      assert Samples(rest) + [] == Samples(rest);
    }
  }

  predicate Fresh(e: Watched) {
    e.result.ready && e.result.state.Ready?
  }

  function RaiseMax(m: real, e: Watched): real {
    if Fresh(e) then Max(m, e.result.latency) else m
  }

  /** The division by the latency is defined wherever it is made. */
  predicate LatencyOk(e: Watched, lf: nat) {
    lf > 0 && Fresh(e) ==> e.result.latency > 0.0
  }

  /** The weight a pass computes for an entry; an entry not heard from is put on
      hold if it is listed. */
  function NewWeight(e: Watched, maxLat: real, lf: nat): real
    requires LatencyOk(e, lf)
  {
    if e.result.ready then
      match e.result.state
      case NotFound => -1.0
      case NotReady => -1.0
      case Avoid => 0.0
      case Ready => if maxLat > 0.0 && lf > 0 then e.config * maxLat / e.result.latency else e.config
    else if e.weight >= 0.0 then 0.0
    else e.weight
  }

  function Demoted(e: Watched): Watched {
    if e.result.ready then e
    else if e.weight >= 0.0 then
      if e.result.state.Ready? then e.(result := e.result.(state := Avoid)) else e
    else
      if e.result.state.Ready? || e.result.state.Avoid? then e.(result := e.result.(state := NotReady)) else e
  }

  function Abs(x: real): real { if x < 0.0 then -x else x }

  /** Whether the router is told: small changes of a positive weight are not. */
  predicate Tells(prior: real, target: real) {
    target != prior && (target <= 0.0 || Abs(prior / target - 1.0) > TOLERANCE)
  }

  /** The entry after its visit; `listed`: the router knows its address. */
  function Settled(e: Watched, maxLat: real, lf: nat, listed: bool): Watched
    requires LatencyOk(e, lf)
  {
    var target := NewWeight(e, maxLat, lf);
    if Tells(e.weight, target) && (target >= 0.0 || listed) then Demoted(e).(weight := target) else Demoted(e)
  }

  ghost function Told(m: map<Addr, Row>, e: Watched, maxLat: real, lf: nat): map<Addr, Row>
    requires LatencyOk(e, lf)
  {
    var target := NewWeight(e, maxLat, lf);
    if Tells(e.weight, target) then MapChange(m, e.addr, target) else m
  }

  // -------------------------------------------------------------- the pass

  ghost predicate Unique(dst: seq<Watched>) {
    forall i, j :: 0 <= i < j < |dst| ==> dst[i].addr != dst[j].addr
  }

  function MaxLat(dst: seq<Watched>, n: nat): real
    requires n <= |dst|
  {
    if n == 0 then 0.0 else RaiseMax(MaxLat(dst, n - 1), dst[n - 1])
  }

  ghost function Copies(dst: seq<Watched>, reports: Addr -> Check, lf: nat): (c: seq<Watched>)
    ensures |c| == |dst| && forall i :: 0 <= i < |c| ==> c[i] == Copied(dst[i], reports(dst[i].addr), lf)
  {
    seq(|dst|, i requires 0 <= i < |dst| => Copied(dst[i], reports(dst[i].addr), lf))
  }

  ghost predicate AllOk(dst: seq<Watched>, lf: nat) {
    forall i :: 0 <= i < |dst| ==> LatencyOk(dst[i], lf)
  }

  /** The router's rows after visiting entries `i` and above, from the last down. */
  ghost function RowsAfter(dst: seq<Watched>, joined: Addr -> bool, lat: real, lf: nat,
                           m: map<Addr, Row>, i: nat): map<Addr, Row>
    requires i <= |dst| && AllOk(dst, lf)
    decreases |dst| - i
  {
    if i == |dst| then m
    else
      var m1 := RowsAfter(dst, joined, lat, lf, m, i + 1);
      if joined(dst[i].addr) then m1 else Told(m1, dst[i], lat, lf)
  }

  /** The surviving entries from `i` on, each settled once. */
  ghost function Survivors(dst: seq<Watched>, joined: Addr -> bool, lat: real, lf: nat,
                           m: map<Addr, Row>, i: nat): seq<Watched>
    requires i <= |dst| && AllOk(dst, lf)
    decreases |dst| - i
  {
    if i == |dst| then []
    else
      (if joined(dst[i].addr) then [] else [Settled(dst[i], lat, lf, dst[i].addr in m)])
      + Survivors(dst, joined, lat, lf, m, i + 1)
  }

  /** Visiting other entries does not touch an address. */
  lemma {:induction false} RowsElsewhere(dst: seq<Watched>, joined: Addr -> bool, lat: real, lf: nat,
                                         m: map<Addr, Row>, i: nat, a: Addr)
    requires i <= |dst| && AllOk(dst, lf)
    requires forall k :: i <= k < |dst| && !joined(dst[k].addr) ==> dst[k].addr != a
    ensures Get(RowsAfter(dst, joined, lat, lf, m, i), a) == Get(m, a)
    decreases |dst| - i
  {
    if i < |dst| {
      RowsElsewhere(dst, joined, lat, lf, m, i + 1, a);
    }
  }

  /** What the code's return value decides: the address is listed when visited
      exactly when it was listed before the pass. */
  lemma ListedThroughout(dst: seq<Watched>, joined: Addr -> bool, lat: real, lf: nat, m: map<Addr, Row>, i: nat)
    requires i < |dst| && AllOk(dst, lf) && Unique(dst)
    ensures dst[i].addr in RowsAfter(dst, joined, lat, lf, m, i + 1) <==> dst[i].addr in m
  {
    RowsElsewhere(dst, joined, lat, lf, m, i + 1, dst[i].addr);
    assert Get(m, dst[i].addr).Some? <==> dst[i].addr in m;
  }

  // ------------------------------------------------------------- agreement

  /** An entry's recorded weight is what the router has; negative means absent. */
  ghost predicate Agrees(e: Watched, m: map<Addr, Row>) {
    if e.weight < 0.0 then e.addr !in m else e.addr in m && m[e.addr].weight == e.weight
  }

  /** The visit tells the router a weight that the router takes. */
  predicate Repairs(e: Watched, lat: real, lf: nat, listed: bool)
    requires LatencyOk(e, lf)
  {
    var target := NewWeight(e, lat, lf);
    Tells(e.weight, target) && (target >= 0.0 || listed)
  }

  /** A visited entry agrees with the router if and only if it did before or the visit
      tells the router. */
  lemma SettledAgrees(e: Watched, lat: real, lf: nat, m: map<Addr, Row>)
    requires LatencyOk(e, lf)
    ensures Agrees(Settled(e, lat, lf, e.addr in m), Told(m, e, lat, lf)) <==>
            Agrees(e, m) || Repairs(e, lat, lf, e.addr in m)
  {
  }

  /** An entry added while the router still lists its address is put right by a visit
      if and only if its backend has reported READY or AVOID. */
  lemma RepairCondition(e: Watched, lat: real, lf: nat, m: map<Addr, Row>)
    requires LatencyOk(e, lf) && Recorded(e) && e.weight < 0.0 && e.addr in m && lat >= 0.0
    ensures !Agrees(e, m)
    ensures Agrees(Settled(e, lat, lf, true), Told(m, e, lat, lf)) <==>
            e.result.ready && (e.result.state.Ready? || e.result.state.Avoid?)
  {
    SettledAgrees(e, lat, lf, m);
    if Fresh(e) && lf > 0 {
      Quotient(e.config, lat, e.result.latency);
    }
  }

  lemma Quotient(c: real, lat: real, l: real)
    requires c >= 0.0 && lat >= 0.0 && l > 0.0
    ensures c * lat / l >= 0.0
  {
    var q := c * lat / l;
    assert q * l == c * lat >= 0.0;
    assert q < 0.0 ==> q * l < 0.0;
  }

  /** Only the row of the entry's own address decides agreement. */
  lemma AgreesLocally(e: Watched, m: map<Addr, Row>, m': map<Addr, Row>)
    requires Get(m, e.addr) == Get(m', e.addr)
    ensures Agrees(e, m) <==> Agrees(e, m')
  {
    assert (Get(m, e.addr).Some? <==> e.addr in m) && (Get(m', e.addr).Some? <==> e.addr in m');
  }

  /** Entry `j`, if it survives, agrees with the router after the whole pass if and
      only if it did before or its own visit tells the router. */
  lemma {:induction false} PassAgrees(dst: seq<Watched>, joined: Addr -> bool, lat: real, lf: nat,
                                      m: map<Addr, Row>, i: nat, j: nat)
    requires i <= j < |dst| && AllOk(dst, lf) && Unique(dst) && !joined(dst[j].addr)
    ensures Agrees(Settled(dst[j], lat, lf, dst[j].addr in m), RowsAfter(dst, joined, lat, lf, m, i)) <==>
            Agrees(dst[j], m) || Repairs(dst[j], lat, lf, dst[j].addr in m)
    decreases |dst| - i
  {
    var s := Settled(dst[j], lat, lf, dst[j].addr in m);
    var m1 := RowsAfter(dst, joined, lat, lf, m, i + 1);
    if i == j {
      RowsElsewhere(dst, joined, lat, lf, m, i + 1, dst[j].addr);
      AgreesLocally(dst[j], m, m1);
      ListedThroughout(dst, joined, lat, lf, m, i);
      SettledAgrees(dst[j], lat, lf, m1);
    } else {
      PassAgrees(dst, joined, lat, lf, m, i + 1, j);
      AgreesLocally(s, m1, RowsAfter(dst, joined, lat, lf, m, i));
    }
  }

  /** An entry that is not listed is recorded at minus one, and the configured weight is
      never negative. */
  predicate Recorded(e: Watched) {
    (e.weight < 0.0 ==> e.weight == -1.0) && e.config >= 0.0
  }

  lemma NewWeightIsRecorded(e: Watched, lat: real, lf: nat)
    requires LatencyOk(e, lf) && Recorded(e) && lat >= 0.0
    ensures NewWeight(e, lat, lf) < 0.0 ==> NewWeight(e, lat, lf) == -1.0
  {
    if Fresh(e) && lf > 0 {
      Quotient(e.config, lat, e.result.latency);
    }
  }

  lemma SettledIsRecorded(e: Watched, lat: real, lf: nat, listed: bool)
    requires LatencyOk(e, lf) && Recorded(e) && lat >= 0.0
    ensures Recorded(Settled(e, lat, lf, listed))
  {
    NewWeightIsRecorded(e, lat, lf);
  }

  /** The weight of a settled entry is the computed one unless that is positive; then it is
      within a tenth of it. */
  lemma SettledWeight(e: Watched, lat: real, lf: nat, m: map<Addr, Row>)
    requires LatencyOk(e, lf) && Agrees(e, m) && Recorded(e) && lat >= 0.0
    ensures var w, target := Settled(e, lat, lf, e.addr in m).weight, NewWeight(e, lat, lf);
            && (target <= 0.0 ==> w == target)
            && (target > 0.0 ==> 0.9 * target <= w <= 1.1 * target)
  {
    var target := NewWeight(e, lat, lf);
    NewWeightIsRecorded(e, lat, lf);
    if target > 0.0 && !Tells(e.weight, target) {
      NotToldIsClose(e.weight, target);
    }
  }

  lemma NotToldIsClose(w: real, n: real)
    requires n > 0.0 && !Tells(w, n)
    ensures 0.9 * n <= w <= 1.1 * n
  {
    var q := w / n;
    assert q * n == w;
    if w != n {
      Within(q, n);
    }
  }

  lemma Within(q: real, n: real)
    requires n > 0.0 && Abs(q - 1.0) <= 0.1
    ensures 0.9 * n <= q * n <= 1.1 * n
  {
  }

  /** A listed entry its backend did not report on is put on hold: the router keeps
      the row at weight zero, and the entry is not shown as ready. */
  lemma SilentIsHeld(e: Watched, lat: real, lf: nat, m: map<Addr, Row>)
    requires !e.result.ready && Agrees(e, m)
    ensures var s, m' := Settled(e, lat, lf, e.addr in m), Told(m, e, lat, lf);
            && !s.result.state.Ready?
            && (e.addr in m ==> s.weight == 0.0 && e.addr in m' && m'[e.addr] == Row(0.0, m[e.addr].conns))
            && (e.addr !in m ==> s.weight == e.weight && m' == m && !s.result.state.Avoid?)
  {
  }

  // ------------------------------------------------------- latency weighting

  lemma {:induction false} MaxLatNotNegative(dst: seq<Watched>, n: nat)
    requires n <= |dst|
    ensures MaxLat(dst, n) >= 0.0
  {
    if n > 0 {
      MaxLatNotNegative(dst, n - 1);
    }
  }

  lemma {:induction false} MaxLatIsBound(dst: seq<Watched>, n: nat, i: nat)
    requires i < n <= |dst| && Fresh(dst[i])
    ensures MaxLat(dst, n) >= dst[i].result.latency
    decreases n
  {
    if i < n - 1 {
      MaxLatIsBound(dst, n - 1, i);
    }
  }

  /** In a latency-weighted pass weight times latency is the same multiple of the
      configured weight for every fresh entry, and none falls below it. */
  lemma LatencyWeighting(dst: seq<Watched>, i: nat, lf: nat)
    requires AllOk(dst, lf) && i < |dst| && Fresh(dst[i]) && lf > 0 && dst[i].config >= 0.0
    ensures var lat := MaxLat(dst, |dst|);
            && NewWeight(dst[i], lat, lf) * dst[i].result.latency == dst[i].config * lat
            && NewWeight(dst[i], lat, lf) >= dst[i].config
  {
    var lat, l, c := MaxLat(dst, |dst|), dst[i].result.latency, dst[i].config;
    MaxLatIsBound(dst, |dst|, i);
    ScaledUp(c, lat, l);
  }

  lemma ScaledUp(c: real, lat: real, l: real)
    requires c >= 0.0 && lat >= l > 0.0
    ensures c * lat / l * l == c * lat && c * lat / l >= c
  {
    var q := c * lat / l;
    assert q * l == c * lat;
    assert c * lat >= c * l;
    if q < c {
      assert q * l < c * l;
    }
  }

  // ------------------------------------------------ the reverse loop, step by step

  /** Entries below `i` are untouched; from `i` on stand the survivors, in some
      order; the router has been told about those. */
  ghost predicate PassInv(was: seq<Watched>, joined: Addr -> bool, lat: real, lf: nat, m: map<Addr, Row>, i: nat,
                          d: seq<Watched>, rows: map<Addr, Row>) {
    && i <= |was| && i <= |d| && AllOk(was, lf) && Unique(was)
    && d[..i] == was[..i]
    && rows == RowsAfter(was, joined, lat, lf, m, i)
    && multiset(d[i..]) == multiset(Survivors(was, joined, lat, lf, m, i))
  }

  /** The entry the loop has come to is still as it was. */
  lemma AtTurn(was: seq<Watched>, joined: Addr -> bool, lat: real, lf: nat, m: map<Addr, Row>, i: nat,
               d: seq<Watched>, rows: map<Addr, Row>)
    requires i < |was| && PassInv(was, joined, lat, lf, m, i + 1, d, rows)
    ensures i < |d| && d[i] == was[i] && LatencyOk(was[i], lf)
  {
    assert d[i] == d[..i + 1][i] && was[i] == was[..i + 1][i];
  }

  lemma ReapStep(was: seq<Watched>, joined: Addr -> bool, lat: real, lf: nat, m: map<Addr, Row>, i: nat,
                 d: seq<Watched>, d': seq<Watched>, rows: map<Addr, Row>)
    requires i < |was| && PassInv(was, joined, lat, lf, m, i + 1, d, rows) && joined(was[i].addr)
    requires i <= |d'| && d'[..i] == d[..i] && multiset(d'[i..]) == multiset(d[i + 1..])
    ensures PassInv(was, joined, lat, lf, m, i, d', rows)
  {
    assert d[..i] == d[..i + 1][..i] && was[..i] == was[..i + 1][..i];
    assert [] + Survivors(was, joined, lat, lf, m, i + 1) == Survivors(was, joined, lat, lf, m, i + 1);
  }

  lemma VisitStep(was: seq<Watched>, joined: Addr -> bool, lat: real, lf: nat, m: map<Addr, Row>, i: nat,
                  d: seq<Watched>, rows: map<Addr, Row>)
    requires i < |was| && PassInv(was, joined, lat, lf, m, i + 1, d, rows) && !joined(was[i].addr)
    ensures d[i] == was[i]
    ensures var d' := d[i := Settled(was[i], lat, lf, was[i].addr in rows)];
            PassInv(was, joined, lat, lf, m, i, d', Told(rows, was[i], lat, lf))
  {
    assert d[i] == d[..i + 1][i] && was[i] == was[..i + 1][i];
    assert d[..i] == d[..i + 1][..i] && was[..i] == was[..i + 1][..i];
    ListedThroughout(was, joined, lat, lf, m, i);
    var s := Settled(was[i], lat, lf, was[i].addr in rows);
    assert d[i := s][i..] == [s] + d[i + 1..];
    assert d[i := s][..i] == d[..i];
  }

  // ---------------------------------------------- what the survivors are

  lemma {:induction false} SurvivorsAre(dst: seq<Watched>, joined: Addr -> bool, lat: real, lf: nat,
                                        m: map<Addr, Row>, i: nat, e: Watched)
    requires i <= |dst| && AllOk(dst, lf)
    ensures e in Survivors(dst, joined, lat, lf, m, i) <==>
            exists j :: i <= j < |dst| && !joined(dst[j].addr) && e == Settled(dst[j], lat, lf, dst[j].addr in m)
    decreases |dst| - i
  {
    if i < |dst| {
      SurvivorsAre(dst, joined, lat, lf, m, i + 1, e);
    }
  }

  lemma {:induction false} SurvivorsUnique(dst: seq<Watched>, joined: Addr -> bool, lat: real, lf: nat,
                                           m: map<Addr, Row>, i: nat)
    requires i <= |dst| && AllOk(dst, lf) && Unique(dst)
    ensures Unique(Survivors(dst, joined, lat, lf, m, i))
    decreases |dst| - i
  {
    if i < |dst| {
      SurvivorsUnique(dst, joined, lat, lf, m, i + 1);
      var rest := Survivors(dst, joined, lat, lf, m, i + 1);
      forall k | 0 <= k < |rest|
        ensures rest[k].addr != dst[i].addr
      {
        SurvivorsAre(dst, joined, lat, lf, m, i + 1, rest[k]);
      }
    }
  }

  lemma {:induction false} UniqueCount(f: seq<Watched>, x: Watched)
    requires Unique(f)
    ensures multiset(f)[x] <= 1
    decreases |f|
  {
    if f != [] {
      var rest := f[..|f| - 1];
      UniqueCount(rest, x);
      assert f == rest + [f[|f| - 1]];
      if f[|f| - 1] == x {
        assert x !in rest;
      }
    }
  }

  /** A permutation of entries with different addresses has different addresses. */
  lemma PermutationUnique(d: seq<Watched>, f: seq<Watched>)
    requires multiset(d) == multiset(f) && Unique(f)
    ensures Unique(d)
  {
    forall i, j | 0 <= i < j < |d|
      ensures d[i].addr != d[j].addr
    {
      assert d[i] in multiset(d) && d[j] in multiset(d);
      assert d[i] in f && d[j] in f;
      if d[i].addr == d[j].addr {
        assert d[i] == d[j];
        TwiceCounts(d, i, j);
        UniqueCount(f, d[i]);
        assert false;
      }
    }
  }

  lemma TwiceCounts(d: seq<Watched>, i: nat, j: nat)
    requires i < j < |d| && d[i] == d[j]
    ensures multiset(d)[d[i]] >= 2
  {
    assert d == d[..i] + [d[i]] + d[i + 1..j] + [d[j]] + d[j + 1..];
  }

  // ------------------------------------------------------------ the object

  /** What a visit hands to the router besides address and weight. */
  datatype Stamp = Stamp(nowNs: int, now: int, junk: real)

  /** Where latencies count, a backend that finds its destination ready has measured
      a positive one. */
  ghost predicate Measured(reports: Addr -> Check, lf: nat) {
    lf > 0 ==> forall a :: reports(a).ready && reports(a).state.Ready? ==> reports(a).latency > 0.0
  }

  ghost predicate NonNegative(dst: seq<Watched>) {
    forall i :: 0 <= i < |dst| ==> dst[i].result.latency >= 0.0
  }

  ghost predicate AllRecorded(dst: seq<Watched>) {
    forall i :: 0 <= i < |dst| ==> Recorded(dst[i])
  }

  ghost predicate Sane(dst: seq<Watched>, lf: nat) {
    Unique(dst) && AllRecorded(dst) && (lf > 0 ==> NonNegative(dst))
  }

  /** The entries from `i` on that a backend thread still at work has reported on. */
  ghost function Heard(dst: seq<Watched>, joined: Addr -> bool, i: nat): set<nat> {
    set j: nat | i <= j < |dst| && !joined(dst[j].addr) && dst[j].result.ready
  }

  lemma HeardOneMore(dst: seq<Watched>, joined: Addr -> bool, i: nat)
    requires i < |dst|
    ensures |Heard(dst, joined, i)|
            == |Heard(dst, joined, i + 1)| + (if joined(dst[i].addr) || !dst[i].result.ready then 0 else 1)
  {
    assert Heard(dst, joined, i)
           == Heard(dst, joined, i + 1) + (if joined(dst[i].addr) || !dst[i].result.ready then {} else {i});
  }

  class Dog {
    const router: Router
    const lf: nat            // latency factor
    var dst: seq<Watched>

    ghost predicate Valid()
      reads this, router
    {
      Inv(router.View(), router.cnf) && Sane(dst, lf)
    }

    constructor (router: Router, lf: nat)
      requires Inv(router.View(), router.cnf)
      ensures Valid() && dst == [] && this.router == router && this.lf == lf
    {
      this.router, this.lf, dst := router, lf, [];
    }

    /** `wdog_change_dst`.  `errn` is the error of starting the backend thread, zero
        when it started.  Removal only tells that thread to quit; the entry goes in a
        later pass. */
    method ChangeDst(a: Addr, weight: real, explicit: bool, errn: nat) returns (r: int)
      requires Valid()
      modifies `dst
      ensures Valid()
      ensures r < 0 <==> !Watches(old(dst), a) && (weight < 0.0 || errn > 0)
      ensures forall b :: Watches(dst, b) <==> Watches(old(dst), b) || (b == a && r >= 0)
      ensures old(AllAgree(dst, Rows(router.dst))) ==>
              (AllAgree(dst, Rows(router.dst)) <==> Watches(old(dst), a) || r < 0 || a !in Rows(router.dst))
      ensures Watches(old(dst), a) ==> r < |old(dst)| && dst == old(dst)[r := Referred(old(dst)[r], weight, explicit)]
      ensures ChangeStep(old(dst), a, weight, explicit, errn, dst)
    {
      var i := 0;
      while i < |dst| && dst[i].addr != a
        invariant 0 <= i <= |dst|
        invariant forall k :: 0 <= k < i ==> dst[k].addr != a
      {
        i := i + 1;
      }
      ghost var was, m := dst, Rows(router.dst);
      if i == |dst| && weight < 0.0 { return -EADDRNOTAVAIL; }
      if i == |dst| {
        if errn > 0 { return 0 - errn; }
        dst := dst + [NewEntry(a, weight, explicit)];
        AddedAgrees(was, NewEntry(a, weight, explicit), m);
      } else {
        if weight >= 0.0 {
          var e := dst[i].(failCount := 0);
          if explicit {
            e := e.(explicit := true, config := weight);
          } else if !e.explicit {
            e := e.(config := weight);
          }
          dst := dst[i := e];
        } else if explicit || !dst[i].explicit {
          dst := dst[i := dst[i].(quit := true)];
        }
        assert dst == was[i := Referred(was[i], weight, explicit)];
        CopiesAgree(was, dst, m);
      }
      r := i;
    }

    /** The forward loop: take over every backend's result and find the largest
        smoothed latency. */
    method CopyResults(reports: Addr -> Check) returns (maxLat: real)
      requires Valid() && Measured(reports, lf)
      modifies `dst
      ensures Valid() && AllOk(dst, lf) && maxLat == MaxLat(dst, |dst|)
      ensures dst == Copies(old(dst), reports, lf)
    {
      ghost var was := dst;
      maxLat := 0.0;
      var i := 0;
      while i < |dst|
        invariant 0 <= i <= |dst| == |was|
        invariant forall k :: 0 <= k < i ==> dst[k] == Copied(was[k], reports(was[k].addr), lf)
        invariant forall k :: i <= k < |dst| ==> dst[k] == was[k]
        invariant maxLat == MaxLat(dst, i)
      {
        var e := Copied(dst[i], reports(dst[i].addr), lf);
        MaxLatPrefix(dst, dst[i := e], i);
        dst := dst[i := e];
        if Fresh(e) && maxLat < e.result.latency { maxLat := e.result.latency; }
        i := i + 1;
      }
      assert dst == Copies(was, reports, lf);
      CopiesSane(was, reports, lf);
    }

    /** `wdog_collect_results` up to membership discovery: if every entry agreed
        with the router before, every surviving entry does after; the survivors are
        those whose backend thread has not ended, and no other row of the router's
        table changes. */
    method CollectResults(reports: Addr -> Check, joined: Addr -> bool, stamp: Addr -> Stamp) returns (results: nat)
      requires Valid() && Measured(reports, lf)
      modifies this, router
      ensures Valid() && AllOk(Copies(old(dst), reports, lf), lf)
      ensures CollectStep(old(dst), old(Rows(router.dst)), lf, reports, joined, dst, Rows(router.dst))
      ensures var c := Copies(old(dst), reports, lf);
              forall e :: multiset(dst)[e] ==
                if IsSurvivor(c, joined, MaxLat(c, |c|), lf, old(Rows(router.dst)), e) then 1 else 0
      ensures forall a :: Watches(dst, a) <==> Watches(old(dst), a) && !joined(a)
      ensures forall a :: !Watches(dst, a) ==> Get(Rows(router.dst), a) == Get(old(Rows(router.dst)), a)
      ensures old(AllAgree(dst, Rows(router.dst))) ==> AllAgree(dst, Rows(router.dst))
      ensures results == |Heard(Copies(old(dst), reports, lf), joined, 0)|
    {
      ghost var was, m := dst, Rows(router.dst);
      var maxLat := CopyResults(reports);
      results := Settle(maxLat, joined, stamp);
      CollectEffect(was, m, lf, reports, joined, dst, Rows(router.dst));
    }

    /** The reverse loop of `wdog_collect_results`, after the results are copied. */
    method Settle(maxLat: real, joined: Addr -> bool, stamp: Addr -> Stamp) returns (results: nat)
      requires Valid() && AllOk(dst, lf)
      modifies `dst, router
      ensures Inv(router.View(), router.cnf)
      ensures Rows(router.dst) == RowsAfter(old(dst), joined, maxLat, lf, old(Rows(router.dst)), 0)
      ensures multiset(dst) == multiset(Survivors(old(dst), joined, maxLat, lf, old(Rows(router.dst)), 0))
      ensures results == |Heard(old(dst), joined, 0)|
    {
      ghost var was, m := dst, Rows(router.dst);
      results := 0;
      var i := |dst|;
      while i > 0
        invariant 0 <= i && Inv(router.View(), router.cnf)
        invariant PassInv(was, joined, maxLat, lf, m, i, dst, Rows(router.dst))
        invariant results == |Heard(was, joined, i)|
      {
        i := i - 1;
        HeardOneMore(was, joined, i);
        var seen := SettleAt(i, maxLat, joined, stamp, was, m);
        results := results + seen;
      }
      assert dst[0..] == dst;
    }

    /** One turn of that loop; returns whether the entry had a result. */
    method SettleAt(i: nat, maxLat: real, joined: Addr -> bool, stamp: Addr -> Stamp,
                    ghost was: seq<Watched>, ghost m: map<Addr, Row>) returns (seen: nat)
      requires Inv(router.View(), router.cnf) && i < |was|
      requires PassInv(was, joined, maxLat, lf, m, i + 1, dst, Rows(router.dst))
      modifies `dst, router
      ensures Inv(router.View(), router.cnf) && PassInv(was, joined, maxLat, lf, m, i, dst, Rows(router.dst))
      ensures seen == if joined(was[i].addr) || !was[i].result.ready then 0 else 1
    {
      seen := 0;
      ghost var d, rows := dst, Rows(router.dst);
      AtTurn(was, joined, maxLat, lf, m, i, d, rows);
      if joined(dst[i].addr) {
        Reap(i);
        ReapStep(was, joined, maxLat, lf, m, i, d, dst, rows);
      } else {
        if dst[i].result.ready { seen := 1; }
        VisitStep(was, joined, maxLat, lf, m, i, d, rows);
        Visit(i, maxLat, stamp(dst[i].addr));
      }
    }

    /** Drops entry `i`, moving the last one into its place. */
    method Reap(i: nat)
      requires i < |dst|
      modifies `dst
      ensures |dst| == |old(dst)| - 1 && dst[..i] == old(dst)[..i]
      ensures multiset(dst[i..]) == multiset(old(dst)[i + 1..])
    {
      var last := |dst| - 1;
      ghost var was := dst;
      if i < last { dst := dst[i := dst[last]]; }
      dst := dst[..last];
      if i < last {
        assert dst[i..] == [was[last]] + was[i + 1..last];
        assert was[i + 1..] == was[i + 1..last] + [was[last]];
      }
    }

    /** Computes entry `i`'s weight and tells the router if it matters. */
    method Visit(i: nat, maxLat: real, stamp: Stamp)
      requires i < |dst| && LatencyOk(dst[i], lf) && Inv(router.View(), router.cnf)
      modifies `dst, router
      ensures Inv(router.View(), router.cnf)
      ensures Rows(router.dst) == Told(old(Rows(router.dst)), old(dst)[i], maxLat, lf)
      ensures dst == old(dst)[i := Settled(old(dst)[i], maxLat, lf, old(dst)[i].addr in old(Rows(router.dst)))]
    {
      var e := dst[i];
      var target;
      if e.result.ready {
        target := NewWeight(e, maxLat, lf);
      } else if e.weight >= 0.0 {
        target := 0.0;
        if e.result.state.Ready? { dst := dst[i := e.(result := e.result.(state := Avoid))]; }
      } else {
        target := e.weight;
        if e.result.state.Ready? || e.result.state.Avoid? {
          dst := dst[i := e.(result := e.result.(state := NotReady))];
        }
      }
      if target != e.weight && (target <= 0.0 || Abs(e.weight / target - 1.0) > TOLERANCE) {
        var c := Change(e.addr, target, true, stamp.nowNs, stamp.now, stamp.junk);
        ChangeDstRefines(router.View(), router.cnf, c);
        var ret := router.ApplyChange(c);
        if ret >= 0 { dst := dst[i := dst[i].(weight := target)]; }
      }
    }
  }

  lemma {:induction false} MaxLatPrefix(d: seq<Watched>, e: seq<Watched>, n: nat)
    requires n <= |d| && n <= |e| && forall k :: 0 <= k < n ==> d[k] == e[k]
    ensures MaxLat(d, n) == MaxLat(e, n)
    decreases n
  {
    if n > 0 {
      MaxLatPrefix(d, e, n - 1);
    }
  }

  ghost predicate Watches(dst: seq<Watched>, a: Addr) {
    exists i :: 0 <= i < |dst| && dst[i].addr == a
  }

  ghost predicate AllAgree(dst: seq<Watched>, m: map<Addr, Row>) {
    forall i :: 0 <= i < |dst| ==> Agrees(dst[i], m)
  }

  /** `e` is a surviving entry after its visit. */
  ghost predicate IsSurvivor(copies: seq<Watched>, joined: Addr -> bool, lat: real, lf: nat,
                             m: map<Addr, Row>, e: Watched)
    requires AllOk(copies, lf)
  {
    exists j :: 0 <= j < |copies| && !joined(copies[j].addr) && e == Settled(copies[j], lat, lf, copies[j].addr in m)
  }

  /** Nothing but survivors, and all of them. */
  lemma PassMembers(copies: seq<Watched>, joined: Addr -> bool, lat: real, lf: nat, m: map<Addr, Row>,
                    d: seq<Watched>, e: Watched)
    requires AllOk(copies, lf) && multiset(d) == multiset(Survivors(copies, joined, lat, lf, m, 0))
    ensures e in d <==> IsSurvivor(copies, joined, lat, lf, m, e)
  {
    SurvivorsAre(copies, joined, lat, lf, m, 0, e);
    assert e in d <==> e in multiset(d);
    var f := Survivors(copies, joined, lat, lf, m, 0);
    assert e in f <==> e in multiset(f);
  }

  /** Each surviving entry stands in the list once, and nothing else does. */
  lemma PassEntries(copies: seq<Watched>, joined: Addr -> bool, lat: real, lf: nat, m: map<Addr, Row>,
                    d: seq<Watched>, e: Watched)
    requires AllOk(copies, lf) && Unique(copies) && multiset(d) == multiset(Survivors(copies, joined, lat, lf, m, 0))
    ensures multiset(d)[e] == if IsSurvivor(copies, joined, lat, lf, m, e) then 1 else 0
  {
    PassMembers(copies, joined, lat, lf, m, d, e);
    SurvivorsUnique(copies, joined, lat, lf, m, 0);
    UniqueCount(Survivors(copies, joined, lat, lf, m, 0), e);
    assert e in d <==> e in multiset(d);
  }

  lemma PassWatches(copies: seq<Watched>, joined: Addr -> bool, lat: real, lf: nat, m: map<Addr, Row>,
                    d: seq<Watched>, a: Addr)
    requires AllOk(copies, lf) && multiset(d) == multiset(Survivors(copies, joined, lat, lf, m, 0))
    ensures Watches(d, a) <==> Watches(copies, a) && !joined(a)
  {
    if i :| 0 <= i < |d| && d[i].addr == a {
      PassMembers(copies, joined, lat, lf, m, d, d[i]);
      SurvivorIsWatched(copies, joined, lat, lf, m, d[i]);
    }
    if j :| 0 <= j < |copies| && copies[j].addr == a && !joined(a) {
      PassKeeps(copies, joined, lat, lf, m, d, j);
    }
  }

  lemma SurvivorIsWatched(copies: seq<Watched>, joined: Addr -> bool, lat: real, lf: nat, m: map<Addr, Row>, e: Watched)
    requires AllOk(copies, lf) && IsSurvivor(copies, joined, lat, lf, m, e)
    ensures Watches(copies, e.addr) && !joined(e.addr)
  {
  }

  lemma PassKeeps(copies: seq<Watched>, joined: Addr -> bool, lat: real, lf: nat, m: map<Addr, Row>,
                  d: seq<Watched>, j: nat)
    requires AllOk(copies, lf) && multiset(d) == multiset(Survivors(copies, joined, lat, lf, m, 0))
    requires j < |copies| && !joined(copies[j].addr)
    ensures Watches(d, copies[j].addr)
  {
    var e := Settled(copies[j], lat, lf, copies[j].addr in m);
    assert IsSurvivor(copies, joined, lat, lf, m, e);
    PassMembers(copies, joined, lat, lf, m, d, e);
    var i :| 0 <= i < |d| && d[i] == e;
    assert d[i].addr == copies[j].addr;
  }

  lemma PassElsewhere(copies: seq<Watched>, joined: Addr -> bool, lat: real, lf: nat, m: map<Addr, Row>,
                      d: seq<Watched>, a: Addr)
    requires AllOk(copies, lf) && multiset(d) == multiset(Survivors(copies, joined, lat, lf, m, 0)) && !Watches(d, a)
    ensures Get(RowsAfter(copies, joined, lat, lf, m, 0), a) == Get(m, a)
  {
    PassWatches(copies, joined, lat, lf, m, d, a);
    RowsElsewhere(copies, joined, lat, lf, m, 0, a);
  }

  lemma PassAllAgree(copies: seq<Watched>, joined: Addr -> bool, lat: real, lf: nat, m: map<Addr, Row>, d: seq<Watched>)
    requires AllOk(copies, lf) && Unique(copies) && multiset(d) == multiset(Survivors(copies, joined, lat, lf, m, 0))
    requires AllAgree(copies, m)
    ensures AllAgree(d, RowsAfter(copies, joined, lat, lf, m, 0))
  {
    forall i | 0 <= i < |d|
      ensures Agrees(d[i], RowsAfter(copies, joined, lat, lf, m, 0))
    {
      PassMembers(copies, joined, lat, lf, m, d, d[i]);
      var j :| 0 <= j < |copies| && !joined(copies[j].addr) && d[i] == Settled(copies[j], lat, lf, copies[j].addr in m);
      assert Agrees(copies[j], m);
      PassAgrees(copies, joined, lat, lf, m, 0, j);
    }
  }

  lemma PassShape(copies: seq<Watched>, joined: Addr -> bool, lat: real, lf: nat, m: map<Addr, Row>, d: seq<Watched>)
    requires AllOk(copies, lf) && Unique(copies) && multiset(d) == multiset(Survivors(copies, joined, lat, lf, m, 0))
    requires (lf > 0 ==> NonNegative(copies)) && AllRecorded(copies) && lat >= 0.0
    ensures Sane(d, lf)
  {
    SurvivorsUnique(copies, joined, lat, lf, m, 0);
    PermutationUnique(d, Survivors(copies, joined, lat, lf, m, 0));
    forall i | 0 <= i < |d|
      ensures Recorded(d[i]) && (lf > 0 ==> d[i].result.latency >= 0.0)
    {
      PassMembers(copies, joined, lat, lf, m, d, d[i]);
      var j :| 0 <= j < |copies| && !joined(copies[j].addr) && d[i] == Settled(copies[j], lat, lf, copies[j].addr in m);
      SettledIsRecorded(copies[j], lat, lf, copies[j].addr in m);
    }
  }

  /** Copying results changes neither addresses nor recorded weights. */
  lemma CopiesAgree(was: seq<Watched>, copies: seq<Watched>, m: map<Addr, Row>)
    requires |copies| == |was|
    requires forall i :: 0 <= i < |was| ==> copies[i].addr == was[i].addr && copies[i].weight == was[i].weight
    ensures AllAgree(was, m) <==> AllAgree(copies, m)
    ensures forall a :: Watches(was, a) <==> Watches(copies, a)
  {
    if AllAgree(was, m) {
      forall i | 0 <= i < |was| ensures Agrees(copies[i], m) { assert Agrees(was[i], m); }
    }
    if AllAgree(copies, m) {
      forall i | 0 <= i < |was| ensures Agrees(was[i], m) { assert Agrees(copies[i], m); }
    }
    forall a
      ensures Watches(was, a) <==> Watches(copies, a)
    {
      if i :| 0 <= i < |was| && was[i].addr == a { assert copies[i].addr == a; }
      if i :| 0 <= i < |copies| && copies[i].addr == a { assert was[i].addr == a; }
    }
  }

  const EADDRNOTAVAIL: int := 99

  function NewEntry(a: Addr, weight: real, explicit: bool): Watched {
    Watched(a, weight, -1.0, Check(NotFound, 0.0, false), 0, explicit, false)
  }

  /** An entry referred to again: explicit settings win over discovered ones, and a
      removal, if it has the right to, tells the backend thread to quit. */
  function Referred(e: Watched, weight: real, explicit: bool): Watched {
    if weight < 0.0 then e.(quit := e.quit || explicit || !e.explicit)
    else e.(failCount := 0, explicit := e.explicit || explicit,
            config := if explicit || !e.explicit then weight else e.config)
  }

  /** A new entry counts as not listed: it agrees with the router exactly when the
      router does not list its address, which a reaped entry may have left there. */
  lemma AddedAgrees(was: seq<Watched>, e: Watched, m: map<Addr, Row>)
    requires e.weight < 0.0
    ensures AllAgree(was + [e], m) <==> AllAgree(was, m) && e.addr !in m
    ensures forall a :: Watches(was + [e], a) <==> Watches(was, a) || a == e.addr
  {
    var d := was + [e];
    if AllAgree(d, m) {
      forall i | 0 <= i < |was| ensures Agrees(was[i], m) { assert Agrees(d[i], m); }
      assert Agrees(d[|was|], m);
    }
    forall a
      ensures Watches(d, a) <==> Watches(was, a) || a == e.addr
    {
      if i :| 0 <= i < |was| && was[i].addr == a { assert d[i].addr == a; }
      assert d[|was|].addr == e.addr;
    }
  }

  // ------------------------------------------------------------- whole runs

  /** `wdog_change_dst` on values. */
  ghost predicate ChangeStep(d: seq<Watched>, a: Addr, weight: real, explicit: bool, errn: nat, d': seq<Watched>) {
    if Watches(d, a) then
      exists r :: 0 <= r < |d| && d[r].addr == a && d' == d[r := Referred(d[r], weight, explicit)]
    else if weight < 0.0 || errn > 0 then d' == d
    else d' == d + [NewEntry(a, weight, explicit)]
  }

  /** `wdog_collect_results` on values. */
  ghost predicate CollectStep(d: seq<Watched>, m: map<Addr, Row>, lf: nat, reports: Addr -> Check,
                              joined: Addr -> bool, d': seq<Watched>, m': map<Addr, Row>) {
    var c := Copies(d, reports, lf);
    var lat := MaxLat(c, |c|);
    && AllOk(c, lf)
    && multiset(d') == multiset(Survivors(c, joined, lat, lf, m, 0))
    && m' == RowsAfter(c, joined, lat, lf, m, 0)
  }

  /** Connections come and go; weights stay. */
  ghost predicate SameWeights(m: map<Addr, Row>, m': map<Addr, Row>) {
    m.Keys == m'.Keys && forall a :: a in m ==> m[a].weight == m'[a].weight
  }

  datatype DogState = DogState(dst: seq<Watched>, rows: map<Addr, Row>)

  datatype DogEvent =
    | Changes(a: Addr, weight: real, explicit: bool, errn: nat)
    | Collects(reports: Addr -> Check, joined: Addr -> bool)
    | Traffic

  ghost predicate DogNext(s: DogState, lf: nat, ev: DogEvent, t: DogState) {
    match ev
    case Changes(a, weight, explicit, errn) => t.rows == s.rows && ChangeStep(s.dst, a, weight, explicit, errn, t.dst)
    case Collects(reports, joined) =>
      Measured(reports, lf) && CollectStep(s.dst, s.rows, lf, reports, joined, t.dst, t.rows)
    case Traffic => t.dst == s.dst && SameWeights(s.rows, t.rows)
  }

  /** The event starts to watch an address that the router lists already. */
  ghost predicate AddsListed(s: DogState, ev: DogEvent) {
    ev.Changes? && !Watches(s.dst, ev.a) && ev.weight >= 0.0 && ev.errn == 0 && ev.a in s.rows
  }

  ghost predicate InStep(s: DogState) {
    AllAgree(s.dst, s.rows)
  }

  lemma ReferredAgrees(d: seq<Watched>, r: nat, weight: real, explicit: bool, m: map<Addr, Row>, lf: nat)
    requires Sane(d, lf) && r < |d|
    ensures var d' := d[r := Referred(d[r], weight, explicit)]; Sane(d', lf) && (AllAgree(d', m) <==> AllAgree(d, m))
  {
    CopiesAgree(d, d[r := Referred(d[r], weight, explicit)], m);
  }

  lemma ChangeInStep(s: DogState, lf: nat, ev: DogEvent, t: DogState)
    requires Sane(s.dst, lf) && ev.Changes? && DogNext(s, lf, ev, t)
    ensures Sane(t.dst, lf) && (InStep(s) ==> (InStep(t) <==> !AddsListed(s, ev)))
  {
    if Watches(s.dst, ev.a) {
      var r :| 0 <= r < |s.dst| && s.dst[r].addr == ev.a
               && t.dst == s.dst[r := Referred(s.dst[r], ev.weight, ev.explicit)];
      ReferredAgrees(s.dst, r, ev.weight, ev.explicit, s.rows, lf);
    } else if ev.weight >= 0.0 && ev.errn == 0 {
      AddedAgrees(s.dst, NewEntry(ev.a, ev.weight, ev.explicit), s.rows);
    }
  }

  lemma CopiesSane(d: seq<Watched>, reports: Addr -> Check, lf: nat)
    requires Sane(d, lf) && Measured(reports, lf)
    ensures Sane(Copies(d, reports, lf), lf) && AllOk(Copies(d, reports, lf), lf)
  {
    var c := Copies(d, reports, lf);
    forall i | 0 <= i < |c| && lf > 0
      ensures c[i].result.latency >= 0.0 && LatencyOk(c[i], lf)
    {
      if Fresh(c[i]) { SmoothBetween(d[i].result.latency, reports(d[i].addr).latency, lf); }
    }
  }

  /** What a pass leaves: the survivors, each once; no other row touched; agreement. */
  lemma CollectEffect(d: seq<Watched>, m: map<Addr, Row>, lf: nat, reports: Addr -> Check,
                      joined: Addr -> bool, d': seq<Watched>, m': map<Addr, Row>)
    requires Sane(d, lf) && Measured(reports, lf) && CollectStep(d, m, lf, reports, joined, d', m')
    ensures Sane(d', lf) && (AllAgree(d, m) ==> AllAgree(d', m'))
    ensures forall a :: Watches(d', a) <==> Watches(d, a) && !joined(a)
    ensures forall a :: !Watches(d', a) ==> Get(m', a) == Get(m, a)
    ensures var c := Copies(d, reports, lf);
            forall e :: multiset(d')[e] == if IsSurvivor(c, joined, MaxLat(c, |c|), lf, m, e) then 1 else 0
  {
    var c := Copies(d, reports, lf);
    var lat := MaxLat(c, |c|);
    CopiesSane(d, reports, lf);
    CopiesAgree(d, c, m);
    MaxLatNotNegative(c, |c|);
    PassShape(c, joined, lat, lf, m, d');
    if AllAgree(d, m) { PassAllAgree(c, joined, lat, lf, m, d'); }
    forall a
      ensures Watches(d', a) <==> Watches(d, a) && !joined(a)
      ensures !Watches(d', a) ==> Get(m', a) == Get(m, a)
    {
      PassWatches(c, joined, lat, lf, m, d', a);
      if !Watches(d', a) { PassElsewhere(c, joined, lat, lf, m, d', a); }
    }
    forall e
      ensures multiset(d')[e] == if IsSurvivor(c, joined, lat, lf, m, e) then 1 else 0
    {
      PassEntries(c, joined, lat, lf, m, d', e);
    }
  }

  lemma CollectInStep(s: DogState, lf: nat, ev: DogEvent, t: DogState)
    requires Sane(s.dst, lf) && ev.Collects? && DogNext(s, lf, ev, t)
    ensures Sane(t.dst, lf) && (InStep(s) ==> InStep(t))
  {
    CollectEffect(s.dst, s.rows, lf, ev.reports, ev.joined, t.dst, t.rows);
  }

  lemma TrafficInStep(s: DogState, t: DogState)
    requires t.dst == s.dst && SameWeights(s.rows, t.rows)
    ensures InStep(s) ==> InStep(t)
  {
    if InStep(s) {
      forall i | 0 <= i < |t.dst| ensures Agrees(t.dst[i], t.rows) { assert Agrees(s.dst[i], s.rows); }
    }
  }

  lemma DogStepKeeps(s: DogState, lf: nat, ev: DogEvent, t: DogState)
    requires Sane(s.dst, lf) && DogNext(s, lf, ev, t)
    ensures Sane(t.dst, lf) && (InStep(s) ==> (InStep(t) <==> !AddsListed(s, ev)))
  {
    match ev
    case Changes(_, _, _, _) => ChangeInStep(s, lf, ev, t);
    case Collects(_, _) => CollectInStep(s, lf, ev, t);
    case Traffic => TrafficInStep(s, t);
  }

  /** Any run of a watchdog that starts with nothing to watch, over any router. */
  ghost predicate IsDogRun(run: seq<DogState>, lf: nat, events: seq<DogEvent>) {
    && |run| == |events| + 1 && run[0].dst == []
    && forall k {:trigger events[k]} :: 0 <= k < |events| ==> DogNext(run[k], lf, events[k], run[k + 1])
  }

  lemma {:induction false} DogRunKeeps(run: seq<DogState>, lf: nat, events: seq<DogEvent>, k: nat)
    requires IsDogRun(run, lf, events) && k < |run|
    ensures Sane(run[k].dst, lf)
    ensures (forall j {:trigger events[j]} :: 0 <= j < k ==> !AddsListed(run[j], events[j])) ==> InStep(run[k])
  {
    if k > 0 {
      DogRunKeeps(run, lf, events, k - 1);
      DogStepKeeps(run[k - 1], lf, events[k - 1], run[k]);
    }
  }

  /** Through a whole run every entry agrees with the router if and only if no address
      is ever taken up that the router lists already. */
  lemma AgreementRuns(run: seq<DogState>, lf: nat, events: seq<DogEvent>)
    requires IsDogRun(run, lf, events)
    ensures (forall k :: 0 <= k < |run| ==> InStep(run[k])) <==>
            forall k {:trigger events[k]} :: 0 <= k < |events| ==> !AddsListed(run[k], events[k])
  {
    if forall k {:trigger events[k]} :: 0 <= k < |events| ==> !AddsListed(run[k], events[k]) {
      forall k | 0 <= k < |run| ensures InStep(run[k]) { DogRunKeeps(run, lf, events, k); }
    } else {
      var k :| 0 <= k < |events| && AddsListed(run[k], events[k]);
      DogRunKeeps(run, lf, events, k);
      DogStepKeeps(run[k], lf, events[k], run[k + 1]);
      assert InStep(run[k]) ==> !InStep(run[k + 1]);
    }
  }

  // ------------------------------------------ reaping leaves the router's row behind

  const X: Addr := Addr(1, 1)
  const UP: Check := Check(Ready, 1.0, true)

  /** One entry, one pass. */
  lemma OnePass(e: Watched, m: map<Addr, Row>, gone: bool)
    requires e.addr == X
    ensures var c := Copied(e, UP, 0);
            CollectStep([e], m, 0, _ => UP, _ => gone,
                        if gone then [] else [Settled(c, MaxLat([c], 1), 0, X in m)],
                        if gone then m else Told(m, c, MaxLat([c], 1), 0))
  {
    var c := Copied(e, UP, 0);
    assert Copies([e], _ => UP, 0) == [c];
    var lat := MaxLat([c], 1);
    assert RowsAfter([c], _ => gone, lat, 0, m, 1) == m && Survivors([c], _ => gone, lat, 0, m, 1) == [];
  }

  /** The watchdog takes up an address, lists it, is told to remove it, and forgets it
      when its thread has ended; the router still lists it when it is taken up again. */
  lemma ReapedThenAdded() returns (run: seq<DogState>, events: seq<DogEvent>)
    ensures IsDogRun(run, 0, events) && run[0] == DogState([], map[]) && |run| == 5
    ensures run[4].dst == [] && AddsListed(run[4], Changes(X, 1.0, true, 0))
    ensures Watches(run[1].dst, X) && run[1].rows == map[] && X in run[2].rows && X in run[3].rows
  {
    var e1 := NewEntry(X, 1.0, true);
    var e2, m := FirstPass(e1);
    var e3 := Referred(e2, -1.0, true);
    OnePass(e3, m, true);
    run := [DogState([], map[]), DogState([e1], map[]), DogState([e2], m), DogState([e3], m), DogState([], m)];
    events := [Changes(X, 1.0, true, 0), Collects(_ => UP, _ => false), Changes(X, -1.0, true, 0),
               Collects(_ => UP, _ => true)];
    QuitStep(e2, m);
    assert DogNext(run[0], 0, events[0], run[1]);
    assert [e1][0].addr == X;
  }

  lemma FirstPass(e: Watched) returns (e': Watched, m: map<Addr, Row>)
    requires e == NewEntry(X, 1.0, true)
    ensures DogNext(DogState([e], map[]), 0, Collects(_ => UP, _ => false), DogState([e'], m))
    ensures e'.addr == X && m == map[X := Row(1.0, 0)]
  {
    var c := Copied(e, UP, 0);
    OnePass(e, map[], false);
    e', m := Settled(c, MaxLat([c], 1), 0, false), Told(map[], c, MaxLat([c], 1), 0);
  }

  lemma QuitStep(e: Watched, m: map<Addr, Row>)
    requires e.addr == X
    ensures DogNext(DogState([e], m), 0, Changes(X, -1.0, true, 0), DogState([Referred(e, -1.0, true)], m))
  {
    assert [e][0].addr == X && [e][0 := Referred(e, -1.0, true)] == [Referred(e, -1.0, true)];
  }
}
