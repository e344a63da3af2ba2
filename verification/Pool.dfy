/** The pool object: registering and removing descriptors in place, and the two
    countdown sweeps over the route map. */
module PoolObject {
  import opened RouterState
  import opened PoolTable

  // ----------------------------------------------------------------- sweeps

  ghost predicate IsReg(t: Tab, id: nat) {
    IsSet(t, EndRef(id, Dst))
  }

  /** The descriptor of `id` a rising sweep meets first. */
  ghost function First(t: Tab, id: nat): int
    requires id in t.conns
  {
    var c := t.conns[id];
    if c.inc.sock < c.dst.sock then c.inc.sock else c.dst.sock
  }

  /** Swept by a sweep whose cursor has reached `cursor`. */
  ghost predicate Hit(t: Tab, cursor: nat, matches: nat -> bool, id: nat) {
    IsReg(t, id) && matches(id) && First(t, id) < cursor
  }

  /** The sweep meets the server end of an incomplete connection first: the
      connection is then left allocated, with the client's socket open. */
  ghost predicate Leaks(t: Tab, id: nat)
    requires id in t.conns
  {
    t.conns[id].dst.kind.Incomplete? && t.conns[id].dst.sock < t.conns[id].inc.sock
  }

  /** Exactly the hit connections are unregistered. */
  ghost predicate RoutesSwept(t0: Tab, t: Tab, cursor: nat, matches: nat -> bool) {
    && |t.route| == |t0.route|
    && forall fd :: 0 <= fd < |t0.route| ==>
         t.route[fd] == if t0.route[fd].Some? && Hit(t0, cursor, matches, t0.route[fd].value.conn) then None
                        else t0.route[fd]
  }

  /** Exactly the hit connections are freed, but for those that leak. */
  ghost predicate KeysSwept(t0: Tab, t: Tab, cursor: nat, matches: nat -> bool) {
    forall id :: id in t0.conns ==> (id in t.conns <==> !Hit(t0, cursor, matches, id) || Leaks(t0, id))
  }

  ghost predicate SweptTo(t0: Tab, t: Tab, cursor: nat, matches: nat -> bool) {
    KeepsEnds(t0, t) && RoutesSwept(t0, t, cursor, matches) && KeysSwept(t0, t, cursor, matches)
  }

  /** The socket belongs to a hit connection; a client's is spared when that leaks. */
  ghost predicate Shut(t: Tab, cursor: nat, matches: nat -> bool, fd: int) {
    && Registered(t, fd) && t.route[fd].value.conn in t.conns && Hit(t, cursor, matches, t.route[fd].value.conn)
    && (t.route[fd].value.side.Inc? || !Leaks(t, t.route[fd].value.conn))
  }

  /** Exactly those sockets are closed. */
  ghost predicate ClosedTo(t0: Tab, t: Tab, cursor: nat, matches: nat -> bool) {
    forall fd :: fd in t.open <==> fd in t0.open && !Shut(t0, cursor, matches, fd)
  }

  /** Where a registered connection's descriptors are routed. */
  lemma RegRoutes(t: Tab, id: nat)
    requires Inv(t) && IsReg(t, id)
    ensures var c := t.conns[id];
            && Registered(t, c.inc.sock) && t.route[c.inc.sock] == Some(EndRef(id, Dst))
            && Registered(t, c.dst.sock) && t.route[c.dst.sock] == Some(EndRef(id, Inc))
            && c.inc.sock != c.dst.sock
  {
    assert PairOk(t, t.conns[id].dst.sock);
  }

  lemma RegOfRoute(t: Tab, fd: int)
    requires Inv(t) && Registered(t, fd)
    ensures var id := t.route[fd].value.conn;
            IsReg(t, id) && (fd == t.conns[id].inc.sock || fd == t.conns[id].dst.sock)
  {
    BothSet(t, fd);
  }

  lemma SweepSkips(t0: Tab, t: Tab, cursor: nat, matches: nat -> bool)
    requires Inv(t0) && SweptTo(t0, t, cursor, matches) && ClosedTo(t0, t, cursor, matches) && cursor < |t0.route|
    requires t.route[cursor].Some? ==> !matches(t.route[cursor].value.conn)
    ensures SweptTo(t0, t, cursor + 1, matches) && ClosedTo(t0, t, cursor + 1, matches)
  {
    forall id
      ensures Hit(t0, cursor + 1, matches, id) <==> Hit(t0, cursor, matches, id)
    {
      if IsReg(t0, id) && matches(id) && First(t0, id) == cursor {
        RegRoutes(t0, id);
      }
    }
  }

  /** The connection met at the cursor has both descriptors at or beyond it. */
  lemma MetFirst(t0: Tab, t: Tab, cursor: nat, matches: nat -> bool)
    requires Inv(t0) && Inv(t) && SweptTo(t0, t, cursor, matches) && cursor < |t0.route|
    requires t.route[cursor].Some? && matches(t.route[cursor].value.conn)
    ensures var id := t.route[cursor].value.conn;
            && IsReg(t0, id) && IsReg(t, id) && First(t0, id) == cursor && t.route[cursor] == t0.route[cursor]
            && t.conns[id].inc.sock == t0.conns[id].inc.sock && t.conns[id].dst.sock == t0.conns[id].dst.sock
            && t.conns[id].dst.kind == t0.conns[id].dst.kind
            && (Full(t, cursor) <==> !Leaks(t0, id))
  {
    var id := t.route[cursor].value.conn;
    RegOfRoute(t, cursor);
    RegOfRoute(t0, cursor);
    RegRoutes(t0, id);
    RegRoutes(t, id);
    assert EndOf(t, EndRef(id, Inc)).sock == EndOf(t0, EndRef(id, Inc)).sock;
    assert EndOf(t, EndRef(id, Dst)).sock == EndOf(t0, EndRef(id, Dst)).sock;
    assert EndOf(t, EndRef(id, Dst)).kind == EndOf(t0, EndRef(id, Dst)).kind;
    assert t.conns[id].inc.kind.Client?;
  }

  /** Moving the cursor past the first descriptor of `id` adds just `id`. */
  lemma HitGrows(t0: Tab, cursor: nat, matches: nat -> bool, id: nat, j: nat)
    requires Inv(t0) && IsReg(t0, id) && matches(id) && First(t0, id) == cursor
    ensures Hit(t0, cursor + 1, matches, j) <==> Hit(t0, cursor, matches, j) || j == id
  {
    RegRoutes(t0, id);
    if IsReg(t0, j) {
      RegRoutes(t0, j);
    }
  }

  lemma OwnDescriptors(t0: Tab, id: nat, fd: int)
    requires Inv(t0) && IsReg(t0, id) && 0 <= fd < |t0.route|
    ensures t0.route[fd].Some? && t0.route[fd].value.conn == id <==>
            fd == t0.conns[id].inc.sock || fd == t0.conns[id].dst.sock
  {
    RegRoutes(t0, id);
    if t0.route[fd].Some? {
      RegOfRoute(t0, fd);
    }
  }

  lemma SweepRoutes(t0: Tab, t: Tab, u: Tab, cursor: nat, matches: nat -> bool, id: nat, fd: int)
    requires Inv(t0) && SweptTo(t0, t, cursor, matches) && 0 <= fd < |t0.route| == |u.route|
    requires IsReg(t0, id) && matches(id) && First(t0, id) == cursor
    requires u.route[fd] == if fd == t0.conns[id].inc.sock || fd == t0.conns[id].dst.sock then None else t.route[fd]
    ensures u.route[fd] == if t0.route[fd].Some? && Hit(t0, cursor + 1, matches, t0.route[fd].value.conn) then None
                           else t0.route[fd]
  {
    OwnDescriptors(t0, id, fd);
    if t0.route[fd].Some? {
      HitGrows(t0, cursor, matches, id, t0.route[fd].value.conn);
    }
  }

  lemma SweepRemoves(t0: Tab, t: Tab, u: Tab, cursor: nat, matches: nat -> bool)
    requires Inv(t0) && Inv(t) && SweptTo(t0, t, cursor, matches) && cursor < |t0.route|
    requires Registered(t, cursor) && matches(t.route[cursor].value.conn)
    requires t.route[cursor].value.conn in t.conns && RemovedFrom(t, cursor, u)
    ensures SweptTo(t0, u, cursor + 1, matches)
  {
    MetFirst(t0, t, cursor, matches);
    SweepTakes(t0, t, u, cursor, matches, t.route[cursor].value.conn);
  }

  lemma SweepTakes(t0: Tab, t: Tab, u: Tab, cursor: nat, matches: nat -> bool, id: nat)
    requires Inv(t0) && SweptTo(t0, t, cursor, matches) && KeepsEnds(t, u)
    requires IsReg(t0, id) && matches(id) && First(t0, id) == cursor
    requires var c := t0.conns[id];
             && 0 <= c.inc.sock < |t.route| && 0 <= c.dst.sock < |t.route|
             && u.route == t.route[c.dst.sock := None][c.inc.sock := None]
    requires u.conns.Keys == if Leaks(t0, id) then t.conns.Keys else t.conns.Keys - {id}
    ensures SweptTo(t0, u, cursor + 1, matches)
  {
    AllRoutes(t0, t, u, cursor, matches, id);
    AllKeys(t0, t, u, cursor, matches, id);
    KeepsEndsFurther(t0, t, u);
  }

  lemma AllKeys(t0: Tab, t: Tab, u: Tab, cursor: nat, matches: nat -> bool, id: nat)
    requires Inv(t0) && SweptTo(t0, t, cursor, matches)
    requires IsReg(t0, id) && matches(id) && First(t0, id) == cursor
    requires u.conns.Keys == if Leaks(t0, id) then t.conns.Keys else t.conns.Keys - {id}
    ensures KeysSwept(t0, u, cursor + 1, matches)
  {
    forall j | j in t0.conns
      ensures j in u.conns <==> !Hit(t0, cursor + 1, matches, j) || Leaks(t0, j)
    {
      SweepKeys(t0, t, u, cursor, matches, id, j);
    }
  }

  lemma KeepsEndsFurther(t0: Tab, t: Tab, u: Tab)
    requires KeepsEnds(t0, t) && KeepsEnds(t, u)
    ensures KeepsEnds(t0, u)
  {
  }

  lemma AllRoutes(t0: Tab, t: Tab, u: Tab, cursor: nat, matches: nat -> bool, id: nat)
    requires Inv(t0) && SweptTo(t0, t, cursor, matches)
    requires IsReg(t0, id) && matches(id) && First(t0, id) == cursor
    requires var c := t0.conns[id];
             && 0 <= c.inc.sock < |t.route| && 0 <= c.dst.sock < |t.route|
             && u.route == t.route[c.dst.sock := None][c.inc.sock := None]
    ensures RoutesSwept(t0, u, cursor + 1, matches)
  {
    forall fd | 0 <= fd < |t0.route|
      ensures u.route[fd] == if t0.route[fd].Some? && Hit(t0, cursor + 1, matches, t0.route[fd].value.conn) then None
                             else t0.route[fd]
    {
      SweepRoutes(t0, t, u, cursor, matches, id, fd);
    }
  }

  lemma SweepKeys(t0: Tab, t: Tab, u: Tab, cursor: nat, matches: nat -> bool, id: nat, j: nat)
    requires Inv(t0) && SweptTo(t0, t, cursor, matches) && j in t0.conns
    requires IsReg(t0, id) && matches(id) && First(t0, id) == cursor
    requires u.conns.Keys == if Leaks(t0, id) then t.conns.Keys else t.conns.Keys - {id}
    ensures j in u.conns <==> !Hit(t0, cursor + 1, matches, j) || Leaks(t0, j)
  {
    HitGrows(t0, cursor, matches, id, j);
  }

  lemma SweepCloses(t0: Tab, t: Tab, u: Tab, cursor: nat, matches: nat -> bool, id: nat)
    requires Inv(t0) && ClosedTo(t0, t, cursor, matches)
    requires IsReg(t0, id) && matches(id) && First(t0, id) == cursor
    requires u.open == t.open - {t0.conns[id].dst.sock} - (if Leaks(t0, id) then {} else {t0.conns[id].inc.sock})
    ensures ClosedTo(t0, u, cursor + 1, matches)
  {
    forall fd
      ensures fd in u.open <==> fd in t0.open && !Shut(t0, cursor + 1, matches, fd)
    {
      ShutGrows(t0, cursor, matches, id, fd);
    }
  }

  lemma ShutGrows(t0: Tab, cursor: nat, matches: nat -> bool, id: nat, fd: int)
    requires Inv(t0) && IsReg(t0, id) && matches(id) && First(t0, id) == cursor
    ensures Shut(t0, cursor + 1, matches, fd) <==>
            || Shut(t0, cursor, matches, fd) || fd == t0.conns[id].dst.sock
            || (fd == t0.conns[id].inc.sock && !Leaks(t0, id))
  {
    RegRoutes(t0, id);
    if Registered(t0, fd) {
      RegOfRoute(t0, fd);
      OwnDescriptors(t0, id, fd);
      HitGrows(t0, cursor, matches, id, t0.route[fd].value.conn);
    }
  }

  /** Removing the connection at the cursor takes two off the count. */
  lemma CountDropsByTwo(t: Tab, u: Tab, cursor: nat)
    requires Inv(t) && Registered(t, cursor) && t.route[cursor].value.conn in t.conns && RemovedFrom(t, cursor, u)
    requires var c := t.conns[t.route[cursor].value.conn]; cursor <= c.inc.sock && cursor <= c.dst.sock
    ensures |u.route| == |t.route| && CountFrom(u.route, cursor + 1) == CountFrom(t.route, cursor) - 2
  {
    var id := t.route[cursor].value.conn;
    var c := t.conns[id];
    RegOfRoute(t, cursor);
    RegRoutes(t, id);
    CountUpdate(t.route, c.dst.sock, None, cursor);
    CountUpdate(t.route[c.dst.sock := None], c.inc.sock, None, cursor);
  }

  // ------------------------------------------------------------- the object

  class Pool {
    const ctl: int
    var pollfds: seq<PollFd>
    var fdMax: nat
    var route: seq<Option<EndRef>>
    var conns: map<nat, Conn>
    var nConns: int
    var open: set<int>
    var down: bool

    ghost function View(): (t: Tab)
      reads this
    {
      Tab(ctl, pollfds, fdMax, route, conns, nConns, open, down)
    }

    ghost predicate Valid()
      reads this
    {
      Inv(View())
    }

    constructor (ctl: int)
      requires 0 < ctl < MAX_FD
      ensures Valid() && nConns == 0 && conns == map[] && this.ctl == ctl && open == {ctl} && !down
    {
      this.ctl := ctl;
      pollfds, fdMax := seq(CHUNK, _ => ZERO)[0 := PollFd(ctl, READ)], 1;
      route := seq(MAX_FD, _ => None);
      conns, nConns, open, down := map[], 0, {ctl}, false;
      new;
      NoneRegistered(route, 0);
    }

    /** Appends a slot, growing the array by a chunk when it is full. */
    method AddFd(fd: int, events: Events) returns (idx: nat)
      requires fdMax <= |pollfds|
      modifies `pollfds, `fdMax
      ensures View() == FdsAdd(old(View()), fd, events) && idx == old(fdMax)
    {
      if fdMax == |pollfds| { pollfds := pollfds + seq(CHUNK, _ => ZERO); }
      pollfds := pollfds[fdMax := PollFd(fd, events)];
      idx := fdMax;
      fdMax := fdMax + 1;
    }

    /** Moves the last slot over the deleted one and tells the moved end. */
    method DeleteFd(r: EndRef)
      requires CanReset(View(), r)
      modifies `pollfds, `fdMax, `conns
      ensures View() == FdsDel(old(View()), r)
    {
      fdMax := fdMax - 1;
      var c := conns[r.conn];
      var idx := if r.side.Inc? then c.inc.idx else c.dst.idx;
      pollfds := pollfds[idx := pollfds[fdMax]];
      var o := route[pollfds[idx].fd].value;
      var oc := conns[o.conn];
      if (if o.side.Inc? then oc.inc else oc.dst).kind.Client? {
        conns := conns[o.conn := oc.(dst := oc.dst.(idx := idx))];
      } else {
        conns := conns[o.conn := oc.(inc := oc.inc.(idx := idx))];
      }
      pollfds := pollfds[fdMax := ZERO];
    }

    method SetConnEnd(r: EndRef)
      requires Coherent(View()) && MaySet(View(), r)
      modifies `pollfds, `fdMax, `conns, `route
      ensures SetTo(old(View()), r, View())
    {
      SetEndEffect(View(), r);
      var c := conns[r.conn];
      var e := if r.side.Inc? then c.inc else c.dst;
      var event := if e.kind.Incomplete? then WRITE else READ;
      var idx := AddFd(e.sock, event);
      var e' := e.(idx := idx, events := event);
      conns := conns[r.conn := if r.side.Inc? then c.(inc := e') else c.(dst := e')];
      route := route[e.sock := Some(Other(r))];
      assert View() == SetEnd(old(View()), r);
    }

    method ResetConnEnd(r: EndRef, closing: bool)
      requires Coherent(View()) && IsSet(View(), r)
      modifies `pollfds, `fdMax, `conns, `route, `open
      ensures ResetTo(old(View()), r, closing, View())
    {
      ResetEndEffect(View(), r, closing);
      var sock := (if r.side.Inc? then conns[r.conn].inc else conns[r.conn].dst).sock;
      DeleteFd(r);
      if closing { open := open - {sock}; }
      route := route[sock := None];
      assert View() == ResetEnd(old(View()), r, closing);
    }

    /** `pool_remove_conn`. */
    method RemoveConn(fd: int)
      requires Valid() && Registered(View(), fd)
      modifies this
      ensures Valid()
      ensures old(route)[fd].value.conn in old(conns) && RemovedTo(old(View()), fd, View())
    {
      ghost var t := View();
      BothSet(t, fd);
      var o := route[fd].value;
      var id := o.conn;
      var full := !(if o.side.Inc? then conns[id].inc else conns[id].dst).kind.Client?
                  || !conns[id].dst.kind.Incomplete?;
      assert full == Full(t, fd);
      ghost var t1 := ResetBoth(id, full);
      ghost var t2 := View();
      nConns := nConns - 1;
      if full { conns := conns - {id}; }
      assert View() == CountedOut(t, fd, t2);
      TwoResets(t, t1, t2, fd);
      RemovedInv(t, fd, CountedOut(t, fd, t2));
    }

    /** Server end first, then the client end. */
    method ResetBoth(id: nat, full: bool) returns (ghost t1: Tab)
      requires Coherent(View()) && IsSet(View(), EndRef(id, Inc)) && IsSet(View(), EndRef(id, Dst))
      requires conns[id].inc.sock != conns[id].dst.sock
      modifies `pollfds, `fdMax, `conns, `route, `open
      ensures ResetTo(old(View()), EndRef(id, Dst), true, t1)
      ensures id in t1.conns && 0 <= t1.conns[id].inc.sock < |t1.route| && ResetTo(t1, EndRef(id, Inc), full, View())
    {
      ResetConnEnd(EndRef(id, Dst), true);
      t1 := View();
      ClientStillSet(old(View()), t1, id);
      ResetConnEnd(EndRef(id, Inc), full);
    }

    /** `pool_handle_add_conn`.  `connect` is the outcome of the asynchronous
        connect, made only when there is no server socket yet. */
    method HandleAdd(id: nat, connect: Option<int>) returns (ok: bool)
      requires Valid() && Joinable(View(), id, connect)
      modifies this
      ensures Valid()
      ensures ok <==> old(conns)[id].dst.sock >= 0 || connect.Some?
      ensures ok ==> MayAdd(Joined(old(View()), id, connect), id) && |old(route)| == MAX_FD
                     && AddedTo(Joined(old(View()), id, connect), id, View())
      ensures !ok ==> View() == Refused(old(View()), id)
    {
      ghost var t := View();
      RefusedInv(t, id);
      if conns[id].dst.sock < 0 {
        if connect.None? {
          open := open - {conns[id].inc.sock};
          conns := conns - {id};
          return false;
        }
        conns := conns[id := conns[id].(dst := conns[id].dst.(sock := connect.value))];
        open := open + {connect.value};
      }
      JoinedInv(t, id, connect);
      SetBoth(id);
      ok := true;
    }

    method SetBoth(id: nat)
      requires Valid() && MayAdd(View(), id)
      modifies `pollfds, `fdMax, `conns, `route, `nConns
      ensures AddedTo(old(View()), id, View())
    {
      ghost var t := View();
      SetConnEnd(EndRef(id, Inc));
      ghost var t1 := View();
      ServerMaySet(t, t1, id);
      SetConnEnd(EndRef(id, Dst));
      TwoSets(t, t1, View(), id);
      nConns := nConns + 1;
    }

    /** `pool_handle_drop_dst`: removes every connection that matches. */
    method DropDst(matches: nat -> bool)
      requires Valid()
      modifies this
      ensures Valid()
      ensures SweptTo(old(View()), View(), MAX_FD, matches) && ClosedTo(old(View()), View(), MAX_FD, matches)
    {
      ghost var t0 := View();
      var count := fdMax - 1;
      var fd := 0;
      SweepStarts(t0, matches);
      while count != 0
        invariant 0 <= fd <= MAX_FD
        invariant Valid() && SweptTo(t0, View(), fd, matches) && ClosedTo(t0, View(), fd, matches)
        invariant count == CountFrom(route, fd)
        decreases MAX_FD - fd
      {
        var removed := SweepAt(fd, matches, t0);
        count := count - removed;
        fd := fd + 1;
      }
      SweepEnds(t0, View(), fd, matches);
    }

    /** `pool_handle_shutdown`: every connection matches. */
    method Shutdown()
      requires Valid() && !down
      modifies this
      ensures Valid() && down && nConns == 0 && forall fd :: 0 <= fd < |route| ==> route[fd].None?
      ensures var before := View().(open := open + {ctl}, down := false);
              SweptTo(old(View()), before, MAX_FD, Always) && ClosedTo(old(View()), before, MAX_FD, Always)
      ensures ctl !in open
    {
      ghost var t0 := View();
      SweepAll();
      AllSwept(t0, View());
      ghost var t := View();
      open, down := open - {ctl}, true;
      assert open + {ctl} == t.open;
    }

    method SweepAll()
      requires Valid()
      modifies this
      ensures Valid()
      ensures SweptTo(old(View()), View(), MAX_FD, Always) && ClosedTo(old(View()), View(), MAX_FD, Always)
    {
      ghost var t0 := View();
      var count := fdMax - 1;
      var fd := 0;
      SweepStarts(t0, Always);
      while count != 0
        invariant 0 <= fd <= MAX_FD
        invariant Valid() && SweptTo(t0, View(), fd, Always) && ClosedTo(t0, View(), fd, Always)
        invariant count == CountFrom(route, fd)
        decreases MAX_FD - fd
      {
        var removed := SweepAt(fd, Always, t0);
        count := count - removed;
        fd := fd + 1;
      }
      SweepEnds(t0, View(), fd, Always);
    }

    /** Changes the events an end waits for, in the end and in its slot. */
    method SetEvents(r: EndRef, events: Events)
      requires Valid() && IsSet(View(), r)
      modifies `conns, `pollfds
      ensures Valid() && route == old(route)
      ensures conns == WithEnd(old(View()), r, EndOf(old(View()), r).(events := events)).conns
    {
      EventsInv(View(), r, events);
      var c := conns[r.conn];
      var e := (if r.side.Inc? then c.inc else c.dst).(events := events);
      conns := conns[r.conn := if r.side.Inc? then c.(inc := e) else c.(dst := e)];
      pollfds := pollfds[e.idx := pollfds[e.idx].(events := events)];
      assert View() == Rearmed(old(View()), r, events);
    }

    /** The failover branch of `pool_handle_conn_complete`: the incomplete server
        end is dropped and the connection added again with a new socket, which may
        reuse the descriptor just closed. */
    method Redirect(id: nat, connect: Option<int>) returns (ok: bool)
      requires Valid() && !down && IsReg(View(), id) && conns[id].dst.kind.Incomplete?
      requires connect.Some? ==> connect.value == conns[id].dst.sock || FreeSocket(View(), connect.value)
      modifies this
      ensures Valid() && !down && (ok <==> connect.Some?)
      ensures 0 <= old(conns)[id].dst.sock < |old(route)| && 0 <= old(conns)[id].inc.sock < |old(route)|
      ensures ok ==> 0 <= connect.value < |old(route)|
                     && route == old(route)[old(conns)[id].dst.sock := None][connect.value := Some(EndRef(id, Inc))]
      ensures !ok ==> route == old(route)[old(conns)[id].dst.sock := None][old(conns)[id].inc.sock := None]
      ensures nConns == old(nConns) - (if ok then 0 else 1) && (id in conns <==> ok)
      ensures open == old(open) - {old(conns)[id].dst.sock}
                      + (if ok then {connect.value} else {}) - (if ok then {} else {old(conns)[id].inc.sock})
      ensures OthersKept(old(View()), View(), id)
      ensures ok ==> AddedAfresh(View(), id, old(conns)[id].inc.sock, connect.value)
    {
      ghost var t := View();
      RegRoutes(t, id);
      RemoveConn(conns[id].dst.sock);
      ghost var u := View();
      conns := conns[id := conns[id].(dst := conns[id].dst.(sock := -1))];
      ghost var v := View();
      Redirectable(t, u, v, id, connect);
      DroppedOthers(t, u, v, id);
      ok := AddAgain(id, connect, t);
      OthersKeptFurther(t, v, View(), id);
    }

    /** The second half of `Redirect`; `t` is the table it started from. */
    method AddAgain(id: nat, connect: Option<int>, ghost t: Tab) returns (ok: bool)
      requires Valid() && Joinable(View(), id, connect) && IsReg(t, id) && Inv(t)
      requires conns[id].dst.sock < 0 && conns[id].inc.sock == t.conns[id].inc.sock
      requires 0 <= t.conns[id].dst.sock < |t.route| && 0 <= t.conns[id].inc.sock < |t.route|
      requires route == t.route[t.conns[id].dst.sock := None][t.conns[id].inc.sock := None]
      modifies this
      ensures Valid() && !down && (ok <==> connect.Some?)
      ensures ok ==> 0 <= connect.value < |t.route|
                     && route == t.route[t.conns[id].dst.sock := None][connect.value := Some(EndRef(id, Inc))]
      ensures !ok ==> route == old(route)
      ensures nConns == old(nConns) + (if ok then 1 else 0) && (id in conns <==> ok)
      ensures open == if ok then old(open) + {connect.value} else old(open) - {t.conns[id].inc.sock}
      ensures OthersKept(old(View()), View(), id)
      ensures ok ==> AddedAfresh(View(), id, t.conns[id].inc.sock, connect.value)
    {
      ghost var v := View();
      ok := HandleAdd(id, connect);
      if ok {
        RedirectedRoute(t, v, View(), id, connect.value);
        AddedEnds(v, View(), id, connect.value);
      }
    }

    /** Allocates a connection that is not yet registered (`glb_pool_add_conn`). */
    method NewConn(id: nat, inc: int, dst: int, complete: bool)
      requires Valid() && !down && id !in conns && FreeSocket(View(), inc)
      requires dst >= 0 ==> FreeSocket(View(), dst) && dst != inc
      modifies `conns, `open
      ensures Valid() && Unregistered(View(), id)
      ensures open == old(open) + {inc} + (if dst >= 0 then {dst} else {})
      ensures (dst >= 0 <==> complete) ==> Joinable(View(), id, None)
      ensures conns == old(conns)[id := Conn(End(inc, 0, NO_EVENTS, Client),
                                             End(dst, 0, NO_EVENTS, if complete then Complete else Incomplete))]
    {
      var k := if complete then Complete else Incomplete;
      ghost var t := View();
      conns := conns[id := Conn(End(inc, 0, NO_EVENTS, Client), End(dst, 0, NO_EVENTS, k))];
      open := open + {inc} + (if dst >= 0 then {dst} else {});
      UnknownIsUnregistered(t, id);
      UnregisteredEdit(t, View(), id);
    }

    /** The success branch of `pool_handle_conn_complete`. */
    method Completed(id: nat)
      requires Valid() && IsReg(View(), id) && conns[id].dst.kind.Incomplete?
      modifies `conns, `pollfds
      ensures Valid() && IsReg(View(), id) && route == old(route)
      ensures conns == old(conns)[id := old(conns)[id].(dst := old(conns)[id].dst.(kind := Complete, events := READ))]
    {
      MarkComplete(id);
      ghost var t := View();
      SetEvents(EndRef(id, Dst), READ);
      assert conns == t.conns[id := t.conns[id].(dst := t.conns[id].dst.(events := READ))];
    }

    method MarkComplete(id: nat)
      requires Valid() && IsReg(View(), id)
      modifies `conns
      ensures Valid() && IsReg(View(), id)
      ensures conns == old(conns)[id := old(conns)[id].(dst := old(conns)[id].dst.(kind := Complete))]
    {
      CompletedInv(View(), id);
      conns := conns[id := conns[id].(dst := conns[id].dst.(kind := Complete))];
    }

    /** The branch of `pool_handle_conn_complete` with no destination left: marking
        the end complete makes the removal a full one. */
    method GiveUp(id: nat)
      requires Valid() && IsReg(View(), id)
      modifies this
      ensures Valid() && id !in conns && nConns == old(nConns) - 1
      ensures old(conns)[id].inc.sock in old(open) && old(conns)[id].dst.sock in old(open)
      ensures open == old(open) - {old(conns)[id].inc.sock, old(conns)[id].dst.sock}
      ensures Unregistered(View(), id) && OthersKept(old(View()), View(), id)
      ensures 0 <= old(conns)[id].dst.sock < |old(route)| && 0 <= old(conns)[id].inc.sock < |old(route)|
      ensures route == old(route)[old(conns)[id].dst.sock := None][old(conns)[id].inc.sock := None]
    {
      ghost var t := View();
      RegRoutes(View(), id);
      MarkComplete(id);
      ghost var u := View();
      RemoveConn(conns[id].dst.sock);
      RemovedOthers(u, u.conns[id].dst.sock, View());
      OthersKeptFurther(t, u, View(), id);
    }

    /** One turn of a sweep; returns by how much the countdown falls. */
    method SweepAt(fd: nat, matches: nat -> bool, ghost t0: Tab) returns (seen: nat)
      requires fd < MAX_FD && Inv(t0)
      requires Valid() && SweptTo(t0, View(), fd, matches) && ClosedTo(t0, View(), fd, matches)
      modifies this
      ensures Valid() && SweptTo(t0, View(), fd + 1, matches) && ClosedTo(t0, View(), fd + 1, matches)
      ensures CountFrom(old(route), fd) == seen + CountFrom(route, fd + 1)
    {
      ghost var t := View();
      if route[fd].Some? && matches(route[fd].value.conn) {
        MetFirst(t0, t, fd, matches);
        RemoveConn(fd);
        CountDropsByTwo(t, View(), fd);
        SweepRemoves(t0, t, View(), fd, matches);
        SweepCloses(t0, t, View(), fd, matches, t.route[fd].value.conn);
        seen := 2;
      } else {
        SweepSkips(t0, t, fd, matches);
        seen := if route[fd].Some? then 1 else 0;
      }
    }
  }

  /** The leak happens: drop a connection that is still connecting and whose server
      descriptor is below the client's.  The client's socket stays open and the
      connection allocated, with no descriptor left that leads to it. */
  method LeakedClient() returns (pool: Pool)
    ensures fresh(pool) && pool.Valid() && pool.nConns == 0
    ensures 20 in pool.open && 10 !in pool.open && 0 in pool.conns && pool.conns[0].inc.sock == 20
    ensures !Registered(pool.View(), 20) && Unregistered(pool.View(), 0)
  {
    pool := new Pool(3);
    pool.NewConn(0, 20, -1, false);
    var ok := pool.HandleAdd(0, Some(10));
    ghost var t := pool.View();
    assert EndOf(t, EndRef(0, Inc)).sock == 20 && EndOf(t, EndRef(0, Dst)).sock == 10;
    assert EndOf(t, EndRef(0, Dst)).kind.Incomplete?;
    assert IsReg(t, 0) && Leaks(t, 0) && Hit(t, MAX_FD, Always, 0);
    pool.DropDst(Always);
    assert Shut(t, MAX_FD, Always, 10) && !Shut(t, MAX_FD, Always, 20);
    NothingLeft(t, pool.View(), 0);
    assert EndOf(pool.View(), EndRef(0, Inc)).sock == 20;
  }

  lemma NothingLeft(t0: Tab, t: Tab, id: nat)
    requires Inv(t0) && Inv(t) && SweptTo(t0, t, MAX_FD, Always)
    ensures t.nConns == 0 && Unregistered(t, id) && forall fd :: !Registered(t, fd)
  {
    AllSwept(t0, t);
  }

  lemma {:induction false} NoneRegistered(route: seq<Option<EndRef>>, from: nat)
    requires from <= |route| && forall fd :: 0 <= fd < |route| ==> route[fd].None?
    ensures CountFrom(route, from) == 0
    decreases |route| - from
  {
    if from < |route| {
      NoneRegistered(route, from + 1);
    }
  }

  // ------------------------------------------------ preparing an addition

  /** A descriptor the kernel may hand out: not one that is open. */
  predicate FreeSocket(t: Tab, sock: int) {
    0 < sock < MAX_FD && sock !in t.open
  }

  /** An open socket that is not registered yet. */
  ghost predicate LooseSocket(t: Tab, sock: int) {
    0 < sock < MAX_FD && sock in t.open && sock != t.ctl && !Registered(t, sock)
  }

  /** An allocated, unregistered connection with a client socket, and a server
      socket or the outcome of opening one. */
  ghost predicate Joinable(t: Tab, id: nat, connect: Option<int>) {
    && !t.down && id in t.conns && Unregistered(t, id) && LooseSocket(t, t.conns[id].inc.sock)
    && (if t.conns[id].dst.sock < 0
        then t.conns[id].dst.kind.Incomplete? && (connect.Some? ==> FreeSocket(t, connect.value))
        else t.conns[id].dst.kind.Complete?
             && LooseSocket(t, t.conns[id].dst.sock) && t.conns[id].dst.sock != t.conns[id].inc.sock)
  }

  ghost function Joined(t: Tab, id: nat, connect: Option<int>): Tab
    requires id in t.conns
  {
    var c := t.conns[id];
    if c.dst.sock < 0 && connect.Some?
    then t.(conns := t.conns[id := c.(dst := c.dst.(sock := connect.value))], open := t.open + {connect.value})
    else t
  }

  ghost function Refused(t: Tab, id: nat): Tab
    requires id in t.conns
  {
    t.(conns := t.conns - {id}, open := t.open - {t.conns[id].inc.sock})
  }

  lemma JoinedInv(t: Tab, id: nat, connect: Option<int>)
    requires Inv(t) && Joinable(t, id, connect) && (t.conns[id].dst.sock < 0 ==> connect.Some?)
    ensures Inv(Joined(t, id, connect)) && MayAdd(Joined(t, id, connect), id)
  {
    var u := Joined(t, id, connect);
    UnregisteredEdit(t, u, id);
  }

  /** Editing or freeing an unregistered connection keeps the invariant. */
  lemma UnregisteredEdit(t: Tab, u: Tab, id: nat)
    requires Inv(t) && Unregistered(t, id)
    requires u == t.(conns := u.conns, open := u.open)
    requires forall j :: j != id && j in t.conns ==> j in u.conns && u.conns[j] == t.conns[j]
    requires forall j :: j in u.conns ==> u.conns[j].inc.kind.Client? && !u.conns[j].dst.kind.Client?
    requires Opened(u)
    ensures Inv(u) && Unregistered(u, id)
  {
    forall fd | Registered(u, fd)
      ensures FdOk(u, fd) && PairOk(u, fd)
    {
      assert Registered(t, fd) && FdOk(t, fd) && PairOk(t, fd);
    }
    forall k | 1 <= k < u.fdMax
      ensures SlotOk(u, k)
    {
      assert SlotOk(t, k) && Registered(t, t.pollfds[k].fd);
    }
  }

  lemma RefusedInv(t: Tab, id: nat)
    requires Inv(t) && id in t.conns && Unregistered(t, id) && LooseSocket(t, t.conns[id].inc.sock)
    ensures Inv(Refused(t, id))
  {
    UnregisteredEdit(t, Refused(t, id), id);
  }

  lemma ServerMaySet(t: Tab, t1: Tab, id: nat)
    requires Inv(t) && MayAdd(t, id) && SetTo(t, EndRef(id, Inc), t1)
    ensures MaySet(t1, EndRef(id, Dst))
  {
    assert EndOf(t1, EndRef(id, Dst)).sock == EndOf(t, EndRef(id, Dst)).sock;
  }

  // ------------------------------------------------- where a sweep starts and ends

  lemma SweepStarts(t0: Tab, matches: nat -> bool)
    requires Inv(t0)
    ensures SweptTo(t0, t0, 0, matches) && ClosedTo(t0, t0, 0, matches)
  {
    forall id | IsReg(t0, id)
      ensures First(t0, id) >= 0
    {
      RegRoutes(t0, id);
    }
  }

  /** With nothing registered at or beyond the cursor the whole map is swept. */
  lemma SweepEnds(t0: Tab, t: Tab, cursor: nat, matches: nat -> bool)
    requires Inv(t0) && cursor <= MAX_FD
    requires SweptTo(t0, t, cursor, matches) && ClosedTo(t0, t, cursor, matches)
    requires CountFrom(t.route, cursor) == 0
    ensures SweptTo(t0, t, MAX_FD, matches) && ClosedTo(t0, t, MAX_FD, matches)
  {
    NothingBeyond(t.route, cursor);
    forall id
      ensures Hit(t0, MAX_FD, matches, id) <==> Hit(t0, cursor, matches, id)
    {
      if IsReg(t0, id) {
        RegRoutes(t0, id);
      }
    }
  }

  lemma {:induction false} NothingBeyond(route: seq<Option<EndRef>>, from: nat)
    requires from <= |route| && CountFrom(route, from) == 0
    ensures forall fd :: from <= fd < |route| ==> route[fd].None?
    decreases |route| - from
  {
    if from < |route| {
      NothingBeyond(route, from + 1);
    }
  }

  function Always(id: nat): bool { true }

  lemma AllSwept(t0: Tab, t: Tab)
    requires Inv(t0) && Inv(t) && SweptTo(t0, t, MAX_FD, Always)
    ensures t.nConns == 0 && forall fd :: 0 <= fd < |t.route| ==> t.route[fd].None?
  {
    forall fd | 0 <= fd < |t.route|
      ensures t.route[fd].None?
    {
      NoRouteLeft(t0, t, fd);
    }
    NoneRegistered(t.route, 0);
  }

  lemma NoRouteLeft(t0: Tab, t: Tab, fd: int)
    requires Inv(t0) && RoutesSwept(t0, t, MAX_FD, Always) && 0 <= fd < |t.route|
    ensures t.route[fd].None?
  {
    if t0.route[fd].Some? {
      RegOfRoute(t0, fd);
      RegRoutes(t0, t0.route[fd].value.conn);
    }
  }

  ghost function Rearmed(t: Tab, r: EndRef, events: Events): Tab
    requires r.conn in t.conns && 0 <= EndOf(t, r).idx < |t.pollfds|
  {
    var e := EndOf(t, r);
    WithEnd(t, r, e.(events := events)).(pollfds := t.pollfds[e.idx := t.pollfds[e.idx].(events := events)])
  }

  lemma EventsInv(t: Tab, r: EndRef, events: Events)
    requires Inv(t) && IsSet(t, r)
    ensures 1 <= EndOf(t, r).idx < t.fdMax && t.pollfds[EndOf(t, r).idx].fd == EndOf(t, r).sock
    ensures Inv(Rearmed(t, r, events))
  {
    assert FdOk(t, EndOf(t, r).sock);
    var u := Rearmed(t, r, events);
    forall fd | Registered(u, fd)
      ensures FdOk(u, fd) && PairOk(u, fd)
    {
      assert Registered(t, fd) && FdOk(t, fd) && PairOk(t, fd);
      assert EndOf(t, Other(t.route[fd].value)).idx == EndOf(t, r).idx ==> fd == EndOf(t, r).sock;
    }
    forall k | 1 <= k < u.fdMax
      ensures SlotOk(u, k)
    {
      assert SlotOk(t, k);
    }
  }

  lemma Redirectable(t: Tab, u: Tab, v: Tab, id: nat, connect: Option<int>)
    requires Inv(t) && Inv(u) && !t.down && IsReg(t, id) && t.conns[id].dst.kind.Incomplete?
    requires Registered(t, t.conns[id].dst.sock) && t.route[t.conns[id].dst.sock].value.conn == id
    requires RemovedTo(t, t.conns[id].dst.sock, u)
    requires connect.Some? ==> connect.value == t.conns[id].dst.sock || FreeSocket(t, connect.value)
    requires id in u.conns && v == u.(conns := u.conns[id := u.conns[id].(dst := u.conns[id].dst.(sock := -1))])
    ensures Inv(v) && Joinable(v, id, connect) && v.open == t.open - {t.conns[id].dst.sock}
    ensures v.conns[id].inc.sock == t.conns[id].inc.sock
  {
    RegRoutes(t, id);
    UnregisteredEdit(u, v, id);
    assert EndOf(u, EndRef(id, Inc)).sock == t.conns[id].inc.sock;
    assert EndOf(u, EndRef(id, Dst)).kind == t.conns[id].dst.kind;
    assert FdOk(t, t.conns[id].inc.sock) && FdOk(t, t.conns[id].dst.sock);
  }

  /** Both ends as they are first added: the server's waits to be written to, the
      client's to be read. */
  ghost predicate AddedAfresh(t: Tab, id: nat, inc: int, dst: int) {
    && id in t.conns
    && SameEnd(End(inc, 0, READ, Client), t.conns[id].inc)
    && SameEnd(End(dst, 0, WRITE, Incomplete), t.conns[id].dst)
  }

  lemma DroppedOthers(t: Tab, u: Tab, v: Tab, id: nat)
    requires Inv(t) && IsReg(t, id) && Registered(t, t.conns[id].dst.sock)
    requires t.route[t.conns[id].dst.sock].value.conn == id && RemovedFrom(t, t.conns[id].dst.sock, u)
    requires id in u.conns && v == u.(conns := u.conns[id := u.conns[id].(dst := u.conns[id].dst.(sock := -1))])
    ensures OthersKept(t, v, id)
  {
    RemovedOthers(t, t.conns[id].dst.sock, u);
    assert OthersKept(u, v, id);
    OthersKeptFurther(t, u, v, id);
  }

  lemma AddedEnds(v: Tab, w: Tab, id: nat, sock: int)
    requires id in v.conns && v.conns[id].inc.kind.Client?
    requires v.conns[id].dst.sock < 0 && v.conns[id].dst.kind.Incomplete? && |v.route| == MAX_FD
    requires MayAdd(Joined(v, id, Some(sock)), id) && AddedTo(Joined(v, id, Some(sock)), id, w)
    ensures OthersKept(v, w, id) && AddedAfresh(w, id, v.conns[id].inc.sock, sock)
  {
    var u := Joined(v, id, Some(sock));
    assert EndOf(w, EndRef(id, Inc)) == w.conns[id].inc && EndOf(w, EndRef(id, Dst)) == w.conns[id].dst;
    assert EndOf(u, EndRef(id, Inc)) == v.conns[id].inc && EndOf(u, EndRef(id, Dst)).sock == sock;
    forall r: EndRef | r.conn != id
      ensures r.conn in w.conns <==> r.conn in v.conns
      ensures r.conn in v.conns ==> SameEnd(EndOf(v, r), EndOf(w, r))
    {
      assert r.conn in w.conns.Keys <==> r.conn in u.conns.Keys;
      assert r.conn in v.conns ==> EndOf(u, r) == EndOf(v, r);
    }
  }

  lemma RedirectedRoute(t: Tab, v: Tab, w: Tab, id: nat, sock: int)
    requires IsReg(t, id) && Inv(t) && id in v.conns && v.conns[id].dst.sock < 0
    requires v.conns[id].inc.sock == t.conns[id].inc.sock && |v.route| == MAX_FD
    requires v.route == t.route[t.conns[id].dst.sock := None][t.conns[id].inc.sock := None]
    requires MayAdd(Joined(v, id, Some(sock)), id) && AddedTo(Joined(v, id, Some(sock)), id, w)
    ensures 0 <= sock < |t.route|
    ensures w.route == t.route[t.conns[id].dst.sock := None][sock := Some(EndRef(id, Inc))]
  {
    RegRoutes(t, id);
  }

  lemma UnknownIsUnregistered(t: Tab, id: nat)
    requires Inv(t) && id !in t.conns
    ensures Unregistered(t, id)
  {
    forall fd | Registered(t, fd)
      ensures t.route[fd].value.conn != id
    {
      assert FdOk(t, fd);
    }
  }

  lemma CompletedInv(t: Tab, id: nat)
    requires Inv(t) && IsReg(t, id)
    ensures var u := t.(conns := t.conns[id := t.conns[id].(dst := t.conns[id].dst.(kind := Complete))]);
            Inv(u) && IsReg(u, id)
  {
    var u := t.(conns := t.conns[id := t.conns[id].(dst := t.conns[id].dst.(kind := Complete))]);
    forall fd | Registered(u, fd)
      ensures FdOk(u, fd) && PairOk(u, fd)
    {
      assert Registered(t, fd) && FdOk(t, fd) && PairOk(t, fd);
    }
    forall k | 1 <= k < u.fdMax
      ensures SlotOk(u, k)
    {
      assert SlotOk(t, k);
    }
  }
}
