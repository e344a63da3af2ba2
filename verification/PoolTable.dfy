/** The pool's descriptor bookkeeping (src/glb_pool.c, poll() variant): a dense
    poll array, a map from descriptor to the opposite connection end, and in each
    end its own slot index.  All three index each other. */
module PoolTable {
  import opened RouterState

  datatype Side = Inc | Dst

  /** A pointer to one end of an allocated connection. */
  datatype EndRef = EndRef(conn: nat, side: Side)

  datatype Kind = Incomplete | Complete | Client

  datatype Events = Events(read: bool, write: bool)

  datatype PollFd = PollFd(fd: int, events: Events)

  datatype End = End(sock: int, idx: int, events: Events, kind: Kind)

  /** Both ends live in one allocation. */
  datatype Conn = Conn(inc: End, dst: End)

  datatype Tab = Tab(
    ctl: int,                        // control descriptor
    pollfds: seq<PollFd>,            // allocated slots
    fdMax: nat,                      // slots in use
    route: seq<Option<EndRef>>,      // by descriptor: the opposite end
    conns: map<nat, Conn>,           // allocated connections
    nConns: int,
    open: set<int>,                  // open sockets
    down: bool)                      // shut down

  const MAX_FD: nat := 0x1_0000
  const CHUNK: nat := 1024           // FD_SETSIZE

  const NO_EVENTS: Events := Events(false, false)
  const READ: Events := Events(true, false)
  const WRITE: Events := Events(false, true)
  const ZERO: PollFd := PollFd(0, NO_EVENTS)

  function Other(r: EndRef): EndRef {
    r.(side := if r.side.Inc? then Dst else Inc)
  }

  function EndOf(t: Tab, r: EndRef): End
    requires r.conn in t.conns
  {
    if r.side.Inc? then t.conns[r.conn].inc else t.conns[r.conn].dst
  }

  function WithEnd(t: Tab, r: EndRef, e: End): Tab
    requires r.conn in t.conns
  {
    var c := t.conns[r.conn];
    t.(conns := t.conns[r.conn := if r.side.Inc? then c.(inc := e) else c.(dst := e)])
  }

  // -------------------------------------------------------------- coherence

  /** The registered end that descriptor `fd` belongs to. */
  ghost predicate Registered(t: Tab, fd: int) {
    0 <= fd < |t.route| && t.route[fd].Some?
  }

  ghost predicate FdOk(t: Tab, fd: int)
    requires Registered(t, fd)
  {
    var r := Other(t.route[fd].value);
    && r.conn in t.conns
    && EndOf(t, r).sock == fd && 0 < fd && 1 <= EndOf(t, r).idx < t.fdMax <= |t.pollfds|
    && t.pollfds[EndOf(t, r).idx] == PollFd(fd, EndOf(t, r).events)
  }

  ghost predicate SlotOk(t: Tab, k: int)
    requires 1 <= k < t.fdMax <= |t.pollfds|
  {
    var fd := t.pollfds[k].fd;
    && Registered(t, fd)
    && Other(t.route[fd].value).conn in t.conns
    && EndOf(t, Other(t.route[fd].value)).idx == k
  }

  /** Route map, slot indices and poll array are mutually inverse; slot 0 is the
      control descriptor, unused slots are zero. */
  ghost predicate Coherent(t: Tab) {
    && |t.route| == MAX_FD
    && 1 <= t.fdMax <= |t.pollfds|
    && t.pollfds[0] == PollFd(t.ctl, READ) && 0 < t.ctl < MAX_FD && t.route[t.ctl].None?
    && (forall id :: id in t.conns ==> t.conns[id].inc.kind.Client? && !t.conns[id].dst.kind.Client?)
    && (forall fd :: Registered(t, fd) ==> FdOk(t, fd))
    && (forall k :: 1 <= k < t.fdMax ==> SlotOk(t, k))
    && (forall k :: t.fdMax <= k < |t.pollfds| ==> t.pollfds[k] == ZERO)
    && CountFrom(t.route, 0) == t.fdMax - 1
  }

  /** Registered descriptors at or beyond `fd`. */
  function CountFrom(route: seq<Option<EndRef>>, fd: nat): nat
    requires fd <= |route|
    decreases |route| - fd
  {
    if fd == |route| then 0 else (if route[fd].Some? then 1 else 0) + CountFrom(route, fd + 1)
  }

  /** Both ends of a connection are registered or neither is. */
  ghost predicate Paired(t: Tab) {
    forall fd :: Registered(t, fd) ==> PairOk(t, fd)
  }

  ghost predicate PairOk(t: Tab, fd: int)
    requires Registered(t, fd)
  {
    var o := t.route[fd].value;
    o.conn in t.conns && Registered(t, EndOf(t, o).sock) && t.route[EndOf(t, o).sock] == Some(Other(o))
  }

  /** Registered descriptors are open sockets, and so is the control descriptor until
      the pool is shut down. */
  ghost predicate Opened(t: Tab) {
    && (forall fd :: Registered(t, fd) ==> fd in t.open)
    && (t.down || t.ctl in t.open)
  }

  ghost predicate Inv(t: Tab) {
    Coherent(t) && Paired(t) && Opened(t) && t.fdMax == 1 + 2 * t.nConns
  }

  // ------------------------------------------------------------------ steps

  function FdsAdd(t: Tab, fd: int, events: Events): Tab
    requires t.fdMax <= |t.pollfds|
  {
    var fds := if t.fdMax == |t.pollfds| then t.pollfds + seq(CHUNK, _ => ZERO) else t.pollfds;
    t.(pollfds := fds[t.fdMax := PollFd(fd, events)], fdMax := t.fdMax + 1)
  }

  /** The end `fd` belongs to, found through the end it is routed to. */
  function ByFd(t: Tab, fd: int): EndRef
    requires 0 <= fd < |t.route| && t.route[fd].Some? && t.route[fd].value.conn in t.conns
  {
    var o := t.route[fd].value;
    if EndOf(t, o).kind.Client? then EndRef(o.conn, Dst) else EndRef(o.conn, Inc)
  }

  /** What the removal code dereferences. */
  predicate CanReset(t: Tab, r: EndRef) {
    && r.conn in t.conns && 1 <= EndOf(t, r).idx < t.fdMax <= |t.pollfds|
    && 0 <= EndOf(t, r).sock < |t.route|
    && var fd := t.pollfds[t.fdMax - 1].fd;
       0 <= fd < |t.route| && t.route[fd].Some? && t.route[fd].value.conn in t.conns
  }

  function FdsDel(t: Tab, r: EndRef): Tab
    requires CanReset(t, r)
  {
    var last := t.fdMax - 1;
    var idx := EndOf(t, r).idx;
    var moved := ByFd(t, t.pollfds[last].fd);
    var t1 := t.(fdMax := last, pollfds := t.pollfds[idx := t.pollfds[last]][last := ZERO]);
    WithEnd(t1, moved, EndOf(t1, moved).(idx := idx))
  }

  ghost predicate MaySet(t: Tab, r: EndRef) {
    && r.conn in t.conns && !IsSet(t, r)
    && 0 < EndOf(t, r).sock < MAX_FD && EndOf(t, r).sock != t.ctl && !Registered(t, EndOf(t, r).sock)
  }

  /** `r` is the end some descriptor belongs to. */
  ghost predicate IsSet(t: Tab, r: EndRef) {
    r.conn in t.conns && Registered(t, EndOf(t, r).sock) && t.route[EndOf(t, r).sock] == Some(Other(r))
  }

  function SetEnd(t: Tab, r: EndRef): Tab
    requires r.conn in t.conns && 0 <= EndOf(t, r).sock < |t.route| && t.fdMax <= |t.pollfds|
  {
    var e := EndOf(t, r);
    var event := if e.kind.Incomplete? then WRITE else READ;
    var t1 := FdsAdd(t, e.sock, event);
    WithEnd(t1, r, e.(idx := t.fdMax, events := event)).(route := t1.route[e.sock := Some(Other(r))])
  }

  function ResetEnd(t: Tab, r: EndRef, closing: bool): Tab
    requires CanReset(t, r)
  {
    var sock := EndOf(t, r).sock;
    var t1 := FdsDel(t, r);
    t1.(route := t1.route[sock := None], open := if closing then t1.open - {sock} else t1.open)
  }

  // ------------------------------------------------- steps keep coherence

  lemma {:induction false} CountUpdate(route: seq<Option<EndRef>>, fd: nat, v: Option<EndRef>, from: nat)
    requires fd < |route| && from <= |route|
    ensures CountFrom(route[fd := v], from) == CountFrom(route, from)
              + (if from <= fd then (if v.Some? then 1 else 0) - (if route[fd].Some? then 1 else 0) else 0)
    decreases |route| - from
  {
    if from < |route| {
      CountUpdate(route, fd, v, from + 1);
    }
  }

  lemma SetEndCoherent(t: Tab, r: EndRef)
    requires Coherent(t) && MaySet(t, r)
    ensures Coherent(SetEnd(t, r))
  {
    var u := SetEnd(t, r);
    var sock := EndOf(t, r).sock;
    CountUpdate(t.route, sock, Some(Other(r)), 0);
    forall fd | Registered(u, fd)
      ensures FdOk(u, fd)
    {
      if fd != sock {
        assert Registered(t, fd) && FdOk(t, fd);
      }
    }
    forall k | 1 <= k < u.fdMax
      ensures SlotOk(u, k)
    {
      if k < t.fdMax {
        assert SlotOk(t, k);
        assert u.pollfds[k] == t.pollfds[k];
      }
    }
  }

  lemma ResetEndCoherent(t: Tab, r: EndRef, closing: bool)
    requires Coherent(t) && IsSet(t, r)
    ensures CanReset(t, r) && Coherent(ResetEnd(t, r, closing))
  {
    var sock := EndOf(t, r).sock;
    assert FdOk(t, sock);
    assert SlotOk(t, t.fdMax - 1);
    var u := ResetEnd(t, r, closing);
    CountUpdate(t.route, sock, None, 0);
    forall fd | Registered(u, fd)
      ensures FdOk(u, fd)
    {
      assert Registered(t, fd) && FdOk(t, fd);
    }
    forall k | 1 <= k < u.fdMax
      ensures SlotOk(u, k)
    {
      assert SlotOk(t, k);
    }
  }

  /** Allocated connections keep their sockets and kinds. */
  ghost predicate SameSockets(t: Tab, u: Tab) {
    && u.conns.Keys == t.conns.Keys && u.ctl == t.ctl && u.down == t.down
    && forall r: EndRef :: r.conn in t.conns ==>
         EndOf(u, r).sock == EndOf(t, r).sock && EndOf(u, r).kind == EndOf(t, r).kind
  }

  /** What resetting end `r` does, slot numbers aside. */
  ghost predicate ResetTo(t: Tab, r: EndRef, closing: bool, u: Tab)
    requires r.conn in t.conns && 0 <= EndOf(t, r).sock < |t.route|
  {
    && Coherent(u) && SameSockets(t, u)
    && (forall q: EndRef :: q.conn in t.conns ==> EndOf(u, q).events == EndOf(t, q).events)
    && u.route == t.route[EndOf(t, r).sock := None]
    && u.open == (if closing then t.open - {EndOf(t, r).sock} else t.open)
    && u.fdMax == t.fdMax - 1 && u.nConns == t.nConns
  }

  lemma ResetEndEffect(t: Tab, r: EndRef, closing: bool)
    requires Coherent(t) && IsSet(t, r)
    ensures CanReset(t, r) && ResetTo(t, r, closing, ResetEnd(t, r, closing))
  {
    ResetEndCoherent(t, r, closing);
  }

  // ----------------------------------------------------- removing a connection

  /** Whether removing through `fd` frees the connection: not when its server end
      is the one reached and has not completed. */
  predicate Full(t: Tab, fd: int)
    requires 0 <= fd < |t.route| && t.route[fd].Some? && t.route[fd].value.conn in t.conns
  {
    var o := t.route[fd].value;
    !EndOf(t, o).kind.Client? || !t.conns[o.conn].dst.kind.Incomplete?
  }

  lemma BothSet(t: Tab, fd: int)
    requires Inv(t) && Registered(t, fd)
    ensures var o := t.route[fd].value;
            && o.conn in t.conns && IsSet(t, o) && IsSet(t, Other(o))
            && EndOf(t, Other(o)).sock == fd && EndOf(t, o).sock != fd
  {
    assert FdOk(t, fd) && PairOk(t, fd);
  }

  /** After the server end is reset the client end is still registered. */
  lemma ClientStillSet(t: Tab, t1: Tab, id: nat)
    requires IsSet(t, EndRef(id, Inc)) && IsSet(t, EndRef(id, Dst)) && ResetTo(t, EndRef(id, Dst), true, t1)
    requires t.conns[id].inc.sock != t.conns[id].dst.sock
    ensures IsSet(t1, EndRef(id, Inc)) && t1.conns[id].inc.sock == t.conns[id].inc.sock
  {
    assert EndOf(t1, EndRef(id, Inc)).sock == EndOf(t, EndRef(id, Inc)).sock;
  }

  /** No descriptor belongs to connection `id`. */
  ghost predicate Unregistered(t: Tab, id: nat) {
    forall fd :: Registered(t, fd) ==> t.route[fd].value.conn != id
  }

  lemma FreeCoherent(t: Tab, id: nat, free: bool, n: int)
    requires Coherent(t) && (free ==> Unregistered(t, id))
    ensures Coherent(t.(nConns := n, conns := if free then t.conns - {id} else t.conns))
  {
    var u := t.(nConns := n, conns := if free then t.conns - {id} else t.conns);
    forall fd | Registered(u, fd)
      ensures FdOk(u, fd)
    {
      assert Registered(t, fd) && FdOk(t, fd);
    }
    forall k | 1 <= k < u.fdMax
      ensures SlotOk(u, k)
    {
      assert SlotOk(t, k) && Registered(t, t.pollfds[k].fd);
    }
  }

  /** Everything but slot numbers is kept for the ends still allocated. */
  ghost predicate KeepsEnds(t: Tab, u: Tab) {
    && u.ctl == t.ctl && u.down == t.down
    && forall r: EndRef :: r.conn in u.conns ==>
         && r.conn in t.conns && EndOf(u, r).sock == EndOf(t, r).sock
         && EndOf(u, r).kind == EndOf(t, r).kind && EndOf(u, r).events == EndOf(t, r).events
  }

  /** Every other connection stays, with its sockets, kinds and events. */
  ghost predicate OthersKept(t: Tab, u: Tab, id: nat) {
    && u.ctl == t.ctl
    && forall r: EndRef :: r.conn != id ==>
         && (r.conn in u.conns <==> r.conn in t.conns)
         && (r.conn in t.conns ==> SameEnd(EndOf(t, r), EndOf(u, r)))
  }

  /** The same end, perhaps in another slot. */
  ghost predicate SameEnd(e: End, f: End) {
    f.sock == e.sock && f.kind == e.kind && f.events == e.events
  }

  lemma OthersKeptFurther(t: Tab, u: Tab, v: Tab, id: nat)
    requires OthersKept(t, u, id) && OthersKept(u, v, id)
    ensures OthersKept(t, v, id)
  {
  }

  lemma RemovedOthers(t: Tab, fd: int, u: Tab)
    requires Registered(t, fd) && t.route[fd].value.conn in t.conns && RemovedFrom(t, fd, u)
    ensures OthersKept(t, u, t.route[fd].value.conn)
  {
    forall r: EndRef | r.conn != t.route[fd].value.conn
      ensures r.conn in u.conns <==> r.conn in t.conns
      ensures r.conn in t.conns ==> SameEnd(EndOf(t, r), EndOf(u, r))
    {
      assert r.conn in u.conns.Keys <==> r.conn in t.conns.Keys;
    }
  }

  /** Removal unregisters exactly the two descriptors of one connection; it closes
      the server's and, when full, the client's and frees the connection. */
  ghost predicate RemovedFrom(t: Tab, fd: int, u: Tab)
    requires Registered(t, fd) && t.route[fd].value.conn in t.conns
  {
    var id := t.route[fd].value.conn;
    var c := t.conns[id];
    && 0 <= c.dst.sock < |t.route| && 0 <= c.inc.sock < |t.route|
    && u.route == t.route[c.dst.sock := None][c.inc.sock := None]
    && u.conns.Keys == (if Full(t, fd) then t.conns.Keys - {id} else t.conns.Keys)
    && u.open == t.open - {c.dst.sock} - (if Full(t, fd) then {c.inc.sock} else {})
    && u.nConns == t.nConns - 1 && KeepsEnds(t, u)
  }

  ghost predicate RemovedTo(t: Tab, fd: int, u: Tab)
    requires Registered(t, fd) && t.route[fd].value.conn in t.conns
  {
    RemovedFrom(t, fd, u) && Coherent(u) && u.fdMax == t.fdMax - 2 && Unregistered(u, t.route[fd].value.conn)
  }

  /** The table after both ends are reset and the connection is counted out. */
  ghost function CountedOut(t: Tab, fd: int, t2: Tab): Tab
    requires Registered(t, fd) && t.route[fd].value.conn in t.conns
  {
    t2.(nConns := t.nConns - 1, conns := if Full(t, fd) then t2.conns - {t.route[fd].value.conn} else t2.conns)
  }

  lemma TwoResets(t: Tab, t1: Tab, t2: Tab, fd: int)
    requires Coherent(t) && Registered(t, fd) && t.route[fd].value.conn in t.conns
    requires var id := t.route[fd].value.conn;
             && 0 <= t.conns[id].dst.sock < |t.route| && id in t1.conns && 0 <= t1.conns[id].inc.sock < |t1.route|
             && ResetTo(t, EndRef(id, Dst), true, t1)
             && ResetTo(t1, EndRef(id, Inc), Full(t, fd), t2)
    ensures RemovedTo(t, fd, CountedOut(t, fd, t2))
  {
    var id := t.route[fd].value.conn;
    ResetsRemove(t, t1, t2, fd);
    BothGone(t, t2, fd);
    FreeCoherent(t2, id, Full(t, fd), t.nConns - 1);
  }

  lemma ResetsRemove(t: Tab, t1: Tab, t2: Tab, fd: int)
    requires Registered(t, fd) && t.route[fd].value.conn in t.conns
    requires var id := t.route[fd].value.conn;
             && 0 <= t.conns[id].dst.sock < |t.route| && id in t1.conns && 0 <= t1.conns[id].inc.sock < |t1.route|
             && ResetTo(t, EndRef(id, Dst), true, t1)
             && ResetTo(t1, EndRef(id, Inc), Full(t, fd), t2)
    ensures RemovedFrom(t, fd, CountedOut(t, fd, t2))
  {
    var id := t.route[fd].value.conn;
    assert EndOf(t1, EndRef(id, Inc)).sock == t.conns[id].inc.sock;
    TwoKeepEnds(t, t1, t2);
  }

  lemma TwoKeepEnds(t: Tab, t1: Tab, t2: Tab)
    requires SameSockets(t, t1) && SameSockets(t1, t2)
    requires forall q: EndRef :: q.conn in t.conns ==> EndOf(t1, q).events == EndOf(t, q).events
    requires forall q: EndRef :: q.conn in t1.conns ==> EndOf(t2, q).events == EndOf(t1, q).events
    ensures KeepsEnds(t, t2)
  {
  }

  lemma RemovedInv(t: Tab, fd: int, u: Tab)
    requires Inv(t) && Registered(t, fd) && t.route[fd].value.conn in t.conns && RemovedTo(t, fd, u)
    ensures Inv(u)
  {
    RemovedPaired(t, fd, u);
    RemovedOpened(t, fd, u);
  }

  lemma RemovedOpened(t: Tab, fd: int, u: Tab)
    requires Inv(t) && Registered(t, fd) && t.route[fd].value.conn in t.conns && RemovedFrom(t, fd, u)
    ensures Opened(u)
  {
    BothSet(t, fd);
    forall g | Registered(u, g)
      ensures g in u.open
    {
      assert Registered(t, g);
    }
  }

  lemma BothGone(t: Tab, u: Tab, fd: int)
    requires Coherent(t) && Registered(t, fd) && t.route[fd].value.conn in t.conns
    requires var c := t.conns[t.route[fd].value.conn];
             && 0 <= c.dst.sock < |t.route| && 0 <= c.inc.sock < |t.route|
             && u.route == t.route[c.dst.sock := None][c.inc.sock := None]
    ensures Unregistered(u, t.route[fd].value.conn)
  {
    forall g | Registered(u, g)
      ensures u.route[g].value.conn != t.route[fd].value.conn
    {
      assert Registered(t, g) && FdOk(t, g);
    }
  }

  lemma RemovedPaired(t: Tab, fd: int, u: Tab)
    requires Inv(t) && Registered(t, fd) && t.route[fd].value.conn in t.conns && RemovedFrom(t, fd, u)
    ensures Paired(u)
  {
    BothGone(t, u, fd);
    forall g | Registered(u, g)
      ensures PairOk(u, g)
    {
      assert Registered(t, g) && PairOk(t, g) && FdOk(t, g);
      var h := EndOf(t, t.route[g].value).sock;
      assert FdOk(t, h);
    }
  }

  // ------------------------------------------------------- adding a connection

  /** A connection whose two sockets can be registered. */
  ghost predicate MayAdd(t: Tab, id: nat) {
    && id in t.conns && MaySet(t, EndRef(id, Inc)) && MaySet(t, EndRef(id, Dst))
    && t.conns[id].inc.sock != t.conns[id].dst.sock && Unregistered(t, id)
    && t.conns[id].inc.sock in t.open && t.conns[id].dst.sock in t.open
  }

  function InitialEvents(k: Kind): Events {
    if k.Incomplete? then WRITE else READ
  }

  /** Adding registers the two descriptors with the events their ends start with,
      and nothing else. */
  ghost predicate AddedTo(t: Tab, id: nat, u: Tab)
    requires MayAdd(t, id) && |t.route| == MAX_FD
  {
    var c := t.conns[id];
    && Inv(u) && SameSockets(t, u)
    && u.route == t.route[c.inc.sock := Some(EndRef(id, Dst))][c.dst.sock := Some(EndRef(id, Inc))]
    && u.open == t.open && u.nConns == t.nConns + 1
    && (forall q: EndRef :: q.conn in t.conns ==>
         EndOf(u, q).events == if q.conn == id then InitialEvents(EndOf(t, q).kind) else EndOf(t, q).events)
  }

  ghost predicate SetTo(t: Tab, r: EndRef, u: Tab)
    requires r.conn in t.conns && 0 <= EndOf(t, r).sock < |t.route|
  {
    && Coherent(u) && SameSockets(t, u)
    && (forall q: EndRef :: q.conn in t.conns ==>
         EndOf(u, q).events == if q == r then InitialEvents(EndOf(t, r).kind) else EndOf(t, q).events)
    && u.route == t.route[EndOf(t, r).sock := Some(Other(r))]
    && u.open == t.open && u.fdMax == t.fdMax + 1 && u.nConns == t.nConns
  }

  lemma SetEndEffect(t: Tab, r: EndRef)
    requires Coherent(t) && MaySet(t, r)
    ensures SetTo(t, r, SetEnd(t, r))
  {
    SetEndCoherent(t, r);
  }

  lemma TwoSets(t: Tab, t1: Tab, t2: Tab, id: nat)
    requires Inv(t) && MayAdd(t, id) && SetTo(t, EndRef(id, Inc), t1)
    requires id in t1.conns && 0 <= t1.conns[id].dst.sock < |t1.route| && SetTo(t1, EndRef(id, Dst), t2)
    ensures Coherent(t2.(nConns := t.nConns + 1)) && AddedTo(t, id, t2.(nConns := t.nConns + 1))
  {
    var u := t2.(nConns := t.nConns + 1);
    FreeCoherent(t2, id, false, t.nConns + 1);
    assert EndOf(t1, EndRef(id, Dst)).sock == EndOf(t, EndRef(id, Dst)).sock;
    AddedPaired(t, u, id);
    AddedOpened(t, u, id);
  }

  lemma AddedOpened(t: Tab, u: Tab, id: nat)
    requires Inv(t) && MayAdd(t, id) && u.open == t.open && u.ctl == t.ctl && u.down == t.down
    requires var c := t.conns[id];
             u.route == t.route[c.inc.sock := Some(EndRef(id, Dst))][c.dst.sock := Some(EndRef(id, Inc))]
    ensures Opened(u)
  {
    forall g | Registered(u, g)
      ensures g in u.open
    {
      assert g == t.conns[id].inc.sock || g == t.conns[id].dst.sock || Registered(t, g);
    }
  }

  lemma AddedPaired(t: Tab, u: Tab, id: nat)
    requires Inv(t) && MayAdd(t, id) && SameSockets(t, u)
    requires var c := t.conns[id];
             u.route == t.route[c.inc.sock := Some(EndRef(id, Dst))][c.dst.sock := Some(EndRef(id, Inc))]
    ensures Paired(u)
  {
    forall fd | Registered(u, fd)
      ensures PairOk(u, fd)
    {
      var c := t.conns[id];
      if fd == c.inc.sock || fd == c.dst.sock {
        assert EndOf(u, EndRef(id, Inc)).sock == c.inc.sock && EndOf(u, EndRef(id, Dst)).sock == c.dst.sock;
      } else {
        assert Registered(t, fd) && PairOk(t, fd);
        assert EndOf(u, t.route[fd].value).sock == EndOf(t, t.route[fd].value).sock;
      }
    }
  }

  // ------------------------------------------------- adding, then removing

  /** The slots in use, as a set: their descriptors are all different. */
  ghost function Slots(t: Tab): set<PollFd>
    requires t.fdMax <= |t.pollfds|
  {
    set k | 1 <= k < t.fdMax :: t.pollfds[k]
  }

  /** The slots are exactly the registered descriptors with their ends' events. */
  lemma SlotsAre(t: Tab, p: PollFd)
    requires Coherent(t)
    ensures p in Slots(t) <==> Registered(t, p.fd) && Other(t.route[p.fd].value).conn in t.conns
                               && EndOf(t, Other(t.route[p.fd].value)).events == p.events
  {
    if p in Slots(t) {
      var k :| 1 <= k < t.fdMax && t.pollfds[k] == p;
      assert SlotOk(t, k) && FdOk(t, p.fd);
    }
    if Registered(t, p.fd) {
      assert FdOk(t, p.fd);
    }
  }

  /** Removing an incomplete connection through its server end puts the table back
      as it was before the connection was added, up to a permutation of slots;
      only the server socket is closed. */
  lemma RemoveUndoesAdd(t: Tab, u: Tab, v: Tab, id: nat)
    requires Inv(t) && MayAdd(t, id) && AddedTo(t, id, u)
    requires t.conns[id].dst.kind.Incomplete?
    requires Registered(u, t.conns[id].dst.sock) && u.route[t.conns[id].dst.sock].value.conn in u.conns
    requires RemovedTo(u, t.conns[id].dst.sock, v)
    ensures v.route == t.route && v.fdMax == t.fdMax && v.nConns == t.nConns
    ensures v.conns.Keys == t.conns.Keys && v.open == t.open - {t.conns[id].dst.sock}
    ensures Slots(v) == Slots(t) && v.pollfds[0] == t.pollfds[0]
  {
    var s := t.conns[id].dst.sock;
    assert EndOf(u, EndRef(id, Inc)).kind == EndOf(t, EndRef(id, Inc)).kind;
    assert EndOf(u, EndRef(id, Dst)).kind == EndOf(t, EndRef(id, Dst)).kind;
    assert !Full(u, s);
    assert EndOf(u, EndRef(id, Dst)).sock == s && EndOf(u, EndRef(id, Inc)).sock == t.conns[id].inc.sock;
    assert v.route == t.route;
    SlotsReturn(t, u, v, id);
  }

  lemma SlotsReturn(t: Tab, u: Tab, v: Tab, id: nat)
    requires Inv(t) && MayAdd(t, id) && AddedTo(t, id, u) && Coherent(v)
    requires v.route == t.route && KeepsEnds(u, v) && v.conns.Keys == t.conns.Keys
    ensures Slots(v) == Slots(t)
  {
    forall p: PollFd
      ensures p in Slots(v) <==> p in Slots(t)
    {
      SlotsAre(t, p);
      SlotsAre(v, p);
      if Registered(t, p.fd) {
        var r := Other(t.route[p.fd].value);
        assert r.conn != id;
        assert FdOk(t, p.fd);
        assert EndOf(v, r).events == EndOf(u, r).events == EndOf(t, r).events;
      }
    }
  }
}
