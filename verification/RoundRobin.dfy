/** The round-robin policy is exact: with a fixed eligible set, consecutive
    choices walk it in circular order. */
module RoundRobin {
  import opened RouterState
  import opened RouterInvariant

  // -------------------------------------------------------- one choice

  function Wrap(x: nat, n: nat): nat
    requires x <= n && 0 < n
  {
    if x == n then 0 else x
  }

  ghost predicate NoneIn(s: State, lo: nat, hi: nat)
    requires hi <= |s.dst|
  {
    forall i: nat :: lo <= i < hi ==> !Eligible(s, i)
  }

  /** `r` is the first eligible row of lo .. hi. */
  ghost predicate FirstIn(s: State, lo: nat, hi: nat, r: nat)
    requires hi <= |s.dst|
  {
    lo <= r < hi && Eligible(s, r) && NoneIn(s, lo, r)
  }

  /** A scan of `left` rows from the cursor: first to the end of the table, then
      round from its start. */
  ghost predicate ScanResult(s: State, left: nat, t: State, r: Option<nat>)
    requires WellFormed(s) && 0 < |s.dst| && left <= |s.dst|
  {
    var n, c := |s.dst|, s.next;
    var stop := if c + left <= n then c + left else n;
    var over := c + left - stop;
    match r
    case Some(i) =>
      && i < n && t == s.(next := Wrap(i + 1, n))
      && (FirstIn(s, c, stop, i) || (NoneIn(s, c, stop) && FirstIn(s, 0, over, i)))
    case None =>
      && t == s.(next := if c + left < n then c + left else c + left - n)
      && NoneIn(s, c, stop) && NoneIn(s, 0, over)
  }

  lemma AdvancedIs(s: State)
    requires WellFormed(s) && 0 < |s.dst|
    ensures Advanced(s) == s.(next := Wrap(s.next + 1, |s.dst|))
  {
  }

  /** Skipping an ineligible row at the cursor. */
  lemma SkipRow(s: State, left: nat, t: State, r: Option<nat>)
    requires WellFormed(s) && 0 < |s.dst| && 0 < left <= |s.dst|
    requires !Eligible(s, s.next)
    requires ScanResult(s.(next := Wrap(s.next + 1, |s.dst|)), left - 1, t, r)
    ensures ScanResult(s, left, t, r)
  {
    var s1 := s.(next := Wrap(s.next + 1, |s.dst|));
    assert forall i: nat :: i < |s.dst| ==> Eligible(s1, i) == Eligible(s, i);
  }

  lemma {:induction false} RoundScanFinds(s: State, left: nat, probe: nat -> Probe)
    requires WellFormed(s) && 0 < |s.dst| && left <= |s.dst|
    ensures var (t, r) := RoundScan(s, left, 0, probe); ScanResult(s, left, t, r)
    decreases left
  {
    if left > 0 {
      var i := s.next;
      AdvancedIs(s);
      var s1 := s.(next := Wrap(i + 1, |s.dst|));
      if Eligible(s1, i) {
        assert s1.dst[i := s1.dst[i]] == s1.dst;
        assert RoundScan(s, left, 0, probe) == (s1, Some(i));
      } else {
        RoundScanFinds(s1, left - 1, probe);
        var (t, r) := RoundScan(s1, left - 1, 0, probe);
        SkipRow(s, left, t, r);
      }
    }
  }

  // ------------------------------------------------- the eligible rows in order

  /** The eligible rows among the first `n`, in table order. */
  ghost function EligibleRows(s: State, n: nat): (g: seq<nat>)
    requires n <= |s.dst|
    ensures forall i: nat :: i in g <==> i < n && Eligible(s, i)
    ensures forall a :: 0 <= a < |g| ==> g[a] < n
    ensures forall a, b :: 0 <= a < b < |g| ==> g[a] < g[b]
  {
    if n == 0 then []
    else if Eligible(s, n - 1) then EligibleRows(s, n - 1) + [n - 1]
    else EligibleRows(s, n - 1)
  }

  /** Position in `g` of the row the cursor reaches first. */
  ghost function Turn(g: seq<nat>, cursor: nat): (p: nat)
    requires 0 < |g|
    ensures p < |g|
  {
    TurnFrom(g, cursor, 0)
  }

  ghost function TurnFrom(g: seq<nat>, cursor: nat, p: nat): (r: nat)
    requires p <= |g| && 0 < |g|
    ensures r < |g|
    ensures (p <= r && cursor <= g[r] && forall q :: p <= q < r ==> g[q] < cursor)
         || (r == 0 && forall q :: p <= q < |g| ==> g[q] < cursor)
    decreases |g| - p
  {
    if p == |g| then 0 else if cursor <= g[p] then p else TurnFrom(g, cursor, p + 1)
  }

  /** One choice takes the row whose turn it is and passes the turn on. */
  lemma OneTurn(s: State, g: seq<nat>, probe: nat -> Probe)
    requires WellFormed(s) && g == EligibleRows(s, |s.dst|) && g != []
    ensures var p := Turn(g, s.next);
            && g[p] < |s.dst|
            && ChooseRound(s, 0, probe) == (s.(next := Wrap(g[p] + 1, |s.dst|)), Some(g[p]))
            && Turn(g, Wrap(g[p] + 1, |s.dst|)) == Wrap(p + 1, |g|)
  {
    RoundScanFinds(s, |s.dst|, probe);
    var (t, r) := RoundScan(s, |s.dst|, 0, probe);
    ScanMeetsTurn(s, g, t, r);
    PassTurn(g, |s.dst|, Turn(g, s.next));
  }

  /** With nothing eligible there is no choice and the cursor is put back. */
  lemma NoTurn(s: State, probe: nat -> Probe)
    requires WellFormed(s) && EligibleRows(s, |s.dst|) == []
    ensures ChooseRound(s, 0, probe) == (s, None)
  {
    if |s.dst| > 0 {
      NoneEligible(s);
      RoundScanFinds(s, |s.dst|, probe);
    }
  }

  lemma ScanMeetsTurn(s: State, g: seq<nat>, t: State, r: Option<nat>)
    requires WellFormed(s) && g == EligibleRows(s, |s.dst|) && g != []
    requires 0 < |s.dst| && ScanResult(s, |s.dst|, t, r)
    ensures var i := g[Turn(g, s.next)]; r == Some(i) && i < |s.dst| && t == s.(next := Wrap(i + 1, |s.dst|))
  {
    var i := g[Turn(g, s.next)];
    TurnIsFirst(s, g, Turn(g, s.next));
    assert Eligible(s, i);
  }

  lemma NoneEligible(s: State)
    requires EligibleRows(s, |s.dst|) == []
    ensures NoneIn(s, 0, |s.dst|)
  {
    forall i: nat | i < |s.dst|
      ensures !Eligible(s, i)
    {
      assert i !in EligibleRows(s, |s.dst|);
    }
  }

  lemma PassTurn(g: seq<nat>, n: nat, p: nat)
    requires p < |g| && forall a :: 0 <= a < |g| ==> g[a] < n
    requires forall a, b :: 0 <= a < b < |g| ==> g[a] < g[b]
    ensures Turn(g, Wrap(g[p] + 1, n)) == Wrap(p + 1, |g|)
  {
    var q := Turn(g, Wrap(g[p] + 1, n));
    if p + 1 < |g| {
      assert g[p] < g[p + 1];
    }
  }

  /** The scan's first eligible row is the one `Turn` names. */
  lemma TurnIsFirst(s: State, g: seq<nat>, p: nat)
    requires WellFormed(s) && 0 < |s.dst| && g == EligibleRows(s, |s.dst|)
    requires g != [] && p == Turn(g, s.next)
    ensures if s.next <= g[p] then FirstIn(s, s.next, |s.dst|, g[p])
            else NoneIn(s, s.next, |s.dst|) && FirstIn(s, 0, s.next, g[p])
  {
    assert g[p] in g;
    forall i: nat | i < |s.dst| && Eligible(s, i)
      ensures exists q :: 0 <= q < |g| && g[q] == i
    {
      assert i in g;
    }
  }

  // --------------------------------------------------------- whole runs

  ghost function EligibleAt(s: State, cnf: Config, now: int): seq<nat>
    requires WellFormed(s)
  {
    var p := Prepared(s, cnf, now);
    EligibleRows(p, |p.dst|)
  }

  /** Round-robin choices, without extra probing, during which the eligible rows
      stay the same; connection counts and the clock move on. */
  ghost predicate IsRoundRun(run: seq<State>, cnf: Config, draws: seq<Draw>, picks: seq<Option<nat>>, g: seq<nat>) {
    && cnf.policy.Round? && cnf.extra == 0
    && |run| == |draws| + 1 && |picks| == |draws|
    && forall k {:trigger draws[k]} :: 0 <= k < |draws| ==>
         && WellFormed(run[k])
         && EligibleAt(run[k], cnf, draws[k].now) == g
         && Choose(run[k], cnf, draws[k]) == (run[k + 1], picks[k])
  }

  lemma ChoiceTakesTurn(s: State, cnf: Config, d: Draw, g: seq<nat>)
    requires WellFormed(s) && cnf.policy.Round? && cnf.extra == 0
    requires g == EligibleAt(s, cnf, d.now) && g != []
    ensures var p := Turn(g, s.next);
            && Choose(s, cnf, d).1 == Some(g[p])
            && Turn(g, Choose(s, cnf, d).0.next) == Wrap(p + 1, |g|)
  {
    var p := Prepared(s, cnf, d.now);
    PreparedWellFormed(s, cnf, d.now);
    TopScanShape(UpdateCtx(s, cnf, d.now), 0);
    assert p.next == s.next;
    OneTurn(p, g, d.probe);
  }

  /** The turn `k` turns after turn `p` of `m`. */
  ghost function After(p: nat, k: nat, m: nat): (q: nat)
    requires p < m
    ensures q < m
  {
    if k == 0 then p else Wrap(After(p, k - 1, m) + 1, m)
  }

  /** The k-th choice of a run takes the k-th turn. */
  lemma {:induction false} RunInCircularOrder(run: seq<State>, cnf: Config, draws: seq<Draw>,
                                              picks: seq<Option<nat>>, g: seq<nat>, k: nat)
    requires IsRoundRun(run, cnf, draws, picks, g) && g != [] && k <= |draws|
    ensures Turn(g, run[k].next) == After(Turn(g, run[0].next), k, |g|)
    ensures k < |draws| ==> picks[k] == Some(g[Turn(g, run[k].next)])
  {
    if k > 0 {
      RunInCircularOrder(run, cnf, draws, picks, g, k - 1);
      TurnAt(run, cnf, draws, picks, g, k - 1);
    }
    if k < |draws| {
      TurnAt(run, cnf, draws, picks, g, k);
    }
  }

  lemma TurnAt(run: seq<State>, cnf: Config, draws: seq<Draw>, picks: seq<Option<nat>>, g: seq<nat>, k: nat)
    requires IsRoundRun(run, cnf, draws, picks, g) && g != [] && k < |draws|
    ensures picks[k] == Some(g[Turn(g, run[k].next)])
    ensures Turn(g, run[k + 1].next) == Wrap(Turn(g, run[k].next) + 1, |g|)
  {
    var d := draws[k];
    ChoiceTakesTurn(run[k], cnf, d, g);
  }

  lemma {:induction false} AfterIsShift(p: nat, k: nat, a: nat, m: nat)
    requires p < m && a <= m
    ensures var q := After(p, k, m); After(p, k + a, m) == if q + a < m then q + a else q + a - m
  {
    if a > 0 {
      AfterIsShift(p, k, a - 1, m);
    }
  }

  function Rotated<T>(g: seq<T>, q: nat): (r: seq<T>)
    requires q <= |g|
    ensures |r| == |g| && multiset(r) == multiset(g)
  {
    assert g == g[..q] + g[q..];
    g[q..] + g[..q]
  }

  /** Any |g| choices in a row are a rotation of the eligible rows: each is taken
      exactly once, in circular order. */
  lemma RunIsRotation(run: seq<State>, cnf: Config, draws: seq<Draw>, picks: seq<Option<nat>>, g: seq<nat>, k: nat)
    requires IsRoundRun(run, cnf, draws, picks, g) && g != [] && k + |g| <= |draws|
    ensures forall a :: 0 <= a < |g| ==> picks[k + a] == Some(Rotated(g, Turn(g, run[k].next))[a])
  {
    RunInCircularOrder(run, cnf, draws, picks, g, k);
    forall a | 0 <= a < |g|
      ensures picks[k + a] == Some(Rotated(g, Turn(g, run[k].next))[a])
    {
      RunInCircularOrder(run, cnf, draws, picks, g, k + a);
      RotationOrder(g, Turn(g, run[0].next), k, a);
    }
  }

  lemma RotationOrder<T>(g: seq<T>, p: nat, k: nat, a: nat)
    requires p < |g| && a < |g|
    ensures Rotated(g, After(p, k, |g|))[a] == g[After(p, k + a, |g|)]
  {
    AfterIsShift(p, k, a, |g|);
  }

  /** The choices repeat with period |g|. */
  lemma RunIsPeriodic(run: seq<State>, cnf: Config, draws: seq<Draw>, picks: seq<Option<nat>>, g: seq<nat>, k: nat)
    requires IsRoundRun(run, cnf, draws, picks, g) && g != [] && k + |g| < |draws|
    ensures picks[k + |g|] == picks[k]
  {
    RunInCircularOrder(run, cnf, draws, picks, g, k);
    RunInCircularOrder(run, cnf, draws, picks, g, k + |g|);
    AfterIsShift(Turn(g, run[0].next), k, |g|, |g|);
  }
}
