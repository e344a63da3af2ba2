/** What each router operation leaves alone: row by row and address by address, only the
    fields an operation is for may change. */
module Frames {
  import opened RouterState
  import opened RouterInvariant

  /** `f` is `e` up to its part of the map, which every refresh divides anew. */
  ghost predicate OnlyShare(e: Entry, f: Entry) {
    f == e.(share := f.share)
  }

  ghost predicate OnlyShares(d: seq<Entry>, f: seq<Entry>) {
    |d| == |f| && forall i :: 0 <= i < |d| ==> OnlyShare(d[i], f[i])
  }

  /** The row listed under `a`. */
  ghost function EntryOf(s: State, a: Addr): Entry
    requires Has(s.dst, a)
  {
    s.dst[Index(s.dst, a)]
  }

  // -------------------------------------------------------- changing the table

  lemma RefreshOnlyShares(s: State, cnf: Config, now: int)
    requires WellFormed(s)
    ensures var t := Refresh(s, cnf, now);
            && OnlyShares(s.dst, t.dst) && t.conns == s.conns && t.next == s.next
            && t.mapFailed == s.mapFailed && t.topFailed == s.topFailed
  {
    TopScanShape(UpdateCtx(s, cnf, now), 0);
  }

  lemma OnlySharesEntry(s: State, t: State, a: Addr)
    requires OnlyShares(s.dst, t.dst)
    ensures Index(s.dst, a) == Index(t.dst, a)
    ensures Has(s.dst, a) ==> OnlyShare(EntryOf(s, a), EntryOf(t, a))
  {
    SameIndex(s.dst, t.dst, a);
  }

  lemma RemovedEntry(s: State, i: nat, a: Addr)
    requires Distinct(s.dst) && i < |s.dst| && a != s.dst[i].addr
    ensures Has(Removed(s, i).dst, a) <==> Has(s.dst, a)
    ensures Has(s.dst, a) ==> EntryOf(Removed(s, i), a) == EntryOf(s, a)
  {
    RemovedLookup(s, i, a);
    var t := Removed(s, i);
    var last := |s.dst| - 1;
    if Has(s.dst, a) {
      var k := Index(s.dst, a);
      var k' := if k == last then i else k;
      assert t.dst[k'] == s.dst[k];
      assert Distinct(t.dst);
      IndexOf(t.dst, k');
    }
  }

  lemma AppendedEntry(s: State, c: Change, a: Addr)
    requires !Has(s.dst, c.addr) && a != c.addr
    ensures var t := Appended(s, c.addr, c.weight, c.probed, c.nowNs, c.junk);
            && (Has(t.dst, a) <==> Has(s.dst, a))
            && (Has(s.dst, a) ==> EntryOf(t, a) == EntryOf(s, a))
  {
    var t := Appended(s, c.addr, c.weight, c.probed, c.nowNs, c.junk);
    var k := Index(s.dst, a);
    assert forall j :: 0 <= j < |s.dst| ==> t.dst[j] == s.dst[j];
    assert t.dst[|s.dst|].addr == c.addr;
    if k < |s.dst| {
      assert t.dst[k] == s.dst[k];
    }
  }

  /** Adding, re-weighting or removing one address leaves the row of every other
      address as it was, up to its part of the map: its failure time, the time of its
      last check, its probe, its weight, its usage and its connections all stay, though
      a removal moves the last row. */
  lemma ChangeKeepsOthers(s: State, cnf: Config, c: Change, a: Addr)
    requires Inv(s, cnf) && a != c.addr
    ensures var t := ChangeDst(s, cnf, c).0;
            && (Has(t.dst, a) <==> Has(s.dst, a))
            && (Has(s.dst, a) ==> OnlyShare(EntryOf(s, a), EntryOf(t, a)))
  {
    var i := Index(s.dst, c.addr);
    if i == |s.dst| && c.weight < 0.0 {
    } else if i == |s.dst| {
      var u := Appended(s, c.addr, c.weight, c.probed, c.nowNs, c.junk);
      AppendedEntry(s, c, a);
      RefreshOnlyShares(u, cnf, c.now);
      OnlySharesEntry(u, Refresh(u, cnf, c.now), a);
    } else if c.weight < 0.0 {
      var u := Removed(s, i);
      RemovedWellFormed(s, i);
      RemovedEntry(s, i, a);
      RefreshOnlyShares(u, cnf, c.now);
      OnlySharesEntry(u, Refresh(u, cnf, c.now), a);
    } else if s.dst[i].weight != c.weight {
      var u := Reweighted(s, i, c.weight);
      SameIndex(s.dst, u.dst, a);
      RefreshOnlyShares(u, cnf, c.now);
      OnlySharesEntry(u, Refresh(u, cnf, c.now), a);
    }
  }

  /** The address named: re-weighted, only its weight, its usage and its part of the map
      change; added, it has no connections, has never failed and was checked just now;
      removed, it is no longer listed. */
  lemma ChangeOfNamed(s: State, cnf: Config, c: Change)
    requires Inv(s, cnf)
    ensures var t := ChangeDst(s, cnf, c).0;
            && (Has(t.dst, c.addr) <==> c.weight >= 0.0)
            && (c.weight >= 0.0 ==>
                 var f := EntryOf(t, c.addr);
                 && f.weight == c.weight && f.usage * (f.conns + 1) as real == c.weight
                 && if Has(s.dst, c.addr)
                    then f == EntryOf(s, c.addr).(weight := f.weight, usage := f.usage, share := f.share)
                    else f.conns == 0 && f.failed == 0 && f.checked == c.nowNs && f.probed == c.probed)
  {
    var i := Index(s.dst, c.addr);
    if i == |s.dst| && c.weight >= 0.0 {
      NamedAdded(s, cnf, c);
    } else if i < |s.dst| && c.weight < 0.0 {
      ChangeDstRefines(s, cnf, c);
      RowsAre(s.dst);
      RowsAre(ChangeDst(s, cnf, c).0.dst);
    } else if i < |s.dst| {
      NamedReweighted(s, cnf, c);
    }
  }

  lemma NamedAdded(s: State, cnf: Config, c: Change)
    requires WellFormed(s) && !Has(s.dst, c.addr) && c.weight >= 0.0
    ensures var t := ChangeDst(s, cnf, c).0;
            && Has(t.dst, c.addr)
            && var f := EntryOf(t, c.addr);
               && f.weight == c.weight && f.usage * (f.conns + 1) as real == c.weight
               && f.conns == 0 && f.failed == 0 && f.checked == c.nowNs && f.probed == c.probed
  {
    var u := Appended(s, c.addr, c.weight, c.probed, c.nowNs, c.junk);
    assert forall j :: 0 <= j < |s.dst| ==> u.dst[j].addr != c.addr;
    assert Index(u.dst, c.addr) == |s.dst| by {
      assert u.dst[|s.dst|].addr == c.addr;
    }
    RefreshOnlyShares(u, cnf, c.now);
    OnlySharesEntry(u, Refresh(u, cnf, c.now), c.addr);
  }

  lemma NamedReweighted(s: State, cnf: Config, c: Change)
    requires Inv(s, cnf) && Has(s.dst, c.addr) && c.weight >= 0.0
    ensures var t := ChangeDst(s, cnf, c).0;
            && Has(t.dst, c.addr)
            && var f := EntryOf(t, c.addr);
               && f.weight == c.weight && f.usage * (f.conns + 1) as real == c.weight
               && f == EntryOf(s, c.addr).(weight := f.weight, usage := f.usage, share := f.share)
  {
    var i := Index(s.dst, c.addr);
    assert UsageOk(s.dst[i]);
    if s.dst[i].weight != c.weight {
      var u := Reweighted(s, i, c.weight);
      SameIndex(s.dst, u.dst, c.addr);
      RefreshOnlyShares(u, cnf, c.now);
      OnlySharesEntry(u, Refresh(u, cnf, c.now), c.addr);
    }
  }

  /** The result is the row the change was about, or -ENONET; the round-robin cursor
      stays unless it stood on the row that is no more, and neither stamp moves. */
  lemma ChangeResult(s: State, cnf: Config, c: Change)
    requires Inv(s, cnf)
    ensures var (t, r) := ChangeDst(s, cnf, c);
            && (r < 0 ==> r == -ENONET && t == s)
            && (r >= 0 && c.weight >= 0.0 ==> r < |t.dst| && t.dst[r].addr == c.addr)
            && (r >= 0 && c.weight < 0.0 ==> r < |s.dst| && s.dst[r].addr == c.addr)
            && (t.next == if s.next < |t.dst| then s.next else 0)
            && t.mapFailed == s.mapFailed && t.topFailed == s.topFailed
  {
    var i := Index(s.dst, c.addr);
    if i == |s.dst| && c.weight >= 0.0 {
      RefreshOnlyShares(Appended(s, c.addr, c.weight, c.probed, c.nowNs, c.junk), cnf, c.now);
    } else if i < |s.dst| && c.weight < 0.0 {
      RemovedWellFormed(s, i);
      RemovedCursor(s, i);
      RefreshOnlyShares(Removed(s, i), cnf, c.now);
    } else if i < |s.dst| {
      RefreshOnlyShares(Reweighted(s, i, c.weight), cnf, c.now);
    }
  }

  /** Adding or removing a destination forgets the top: the outcome is the same whatever
      the top was, and the one then found is found afresh. */
  lemma TopIsForgotten(s: State, cnf: Config, c: Change, top: Option<nat>)
    requires Inv(s, cnf) && WellFormed(s.(top := top)) && (Has(s.dst, c.addr) <==> c.weight < 0.0)
    ensures ChangeDst(s.(top := top), cnf, c) == ChangeDst(s, cnf, c)
    ensures !cnf.top ==> ChangeDst(s, cnf, c).0.top == None
  {
    var u := s.(top := top);
    var i := Index(s.dst, c.addr);
    if i == |s.dst| {
      assert Appended(u, c.addr, c.weight, c.probed, c.nowNs, c.junk)
             == Appended(s, c.addr, c.weight, c.probed, c.nowNs, c.junk);
    } else {
      RemovedWellFormed(s, i);
      assert Removed(u, i) == Removed(s, i);
    }
  }

  lemma RemovedCursor(s: State, i: nat)
    requires WellFormed(s) && i < |s.dst|
    ensures Removed(s, i).next == if s.next < |s.dst| - 1 then s.next else 0
  {
  }

  // ------------------------------------------------------ failing, disconnecting

  /** Marking a destination failed stamps its row and no other. */
  lemma DstFailedKeepsOthers(s: State, cnf: Config, i: nat, now: int)
    requires WellFormed(s) && i < |s.dst|
    ensures var t := DstFailed(s, cnf, i, now);
            && |t.dst| == |s.dst| && t.next == s.next && t.conns == s.conns
            && (forall j :: 0 <= j < |s.dst| && j != i ==> OnlyShare(s.dst[j], t.dst[j]))
            && OnlyShare(s.dst[i].(failed := now), t.dst[i])
  {
    var s1 := s.(ctx := s.ctx.(now := now, retry := RetryInterval(cnf)));
    var s2 := s1.(dst := s1.dst[i := s1.dst[i].(failed := now)]);
    TopScanShape(s2.(ctx := s2.ctx.(minWeight := EPS)), 0);
  }

  /** Giving a connection back takes it off the row of its address, which also carries
      the time of the failure if there was one; no other row and no other field changes,
      and the result is that row, or the table length when the address is gone. */
  lemma DisconnectKeepsOthers(s: State, cnf: Config, a: Addr, failed: bool, now: int)
    requires Inv(s, cnf) && MayDisconnect(s, a)
    ensures var (t, i) := Disconnect(s, cnf, a, failed, now);
            && |t.dst| == |s.dst| && t.next == s.next
            && (i < |s.dst| <==> Has(s.dst, a)) && i <= |s.dst|
            && (i == |s.dst| ==> t == s)
            && (forall j :: 0 <= j < |s.dst| && j != i ==> OnlyShare(s.dst[j], t.dst[j]))
            && (i < |s.dst| ==>
                 var e, f := s.dst[i], t.dst[i];
                 && e.addr == a && f.conns == e.conns - 1 && f.usage * e.conns as real == e.weight
                 && f == e.(conns := f.conns, usage := f.usage, failed := if failed then now else e.failed,
                            share := f.share))
  {
    var i := Index(s.dst, a);
    if i < |s.dst| {
      DstFailedKeepsOthers(Released(s, i), cnf, i, now);
    }
  }
}
