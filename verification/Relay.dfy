/** The byte relay of one connection (src/glb_pool.c) as steps on a value: two
    fixed buffers, partial sends, READ and WRITE interest as flow control,
    asynchronous completion and failover.  `received` and `delivered` record what
    was read for an end and what its current socket accepted. */
module Relay {
  import opened PoolTable

  type Byte = b: int | 0 <= b < 256 witness 0

  /** One end with its buffer: bytes waiting to be sent to that end's socket. */
  datatype EndState = EndState(
    buf: seq<Byte>,
    sent: nat,
    total: nat,
    read: bool,      // READ interest
    write: bool,     // WRITE interest
    kind: Kind,
    received: seq<Byte>,
    delivered: seq<Byte>)

  /** Byte counters: read, sent, read from clients, sent to clients. */
  datatype Stats = Stats(recv: nat, send: nat, rx: nat, tx: nat)

  datatype ConnState = ConnState(inc: EndState, dst: EndState, gone: bool, stats: Stats)

  /** How `send` ends; `Again` stands for EINTR, EAGAIN, EBUSY, ENOBUFS and
      ENOTCONN, `Unhandled` for any other error. */
  datatype SendResult = Sent(n: nat) | Again | Pipe | Unhandled

  datatype RecvResult = Got(bytes: seq<Byte>) | Closed | WouldBlock | Failed

  /** How an asynchronous connect turned out: completed; failed with another
      server's connect under way; failed and another's failed at once; failed with
      no server left. */
  datatype Completion = Completed | Reconnecting | Refused | NoServer

  function At(c: ConnState, client: bool): EndState {
    if client then c.inc else c.dst
  }

  function Put(c: ConnState, client: bool, e: EndState): ConnState {
    if client then c.(inc := e) else c.(dst := e)
  }

  // ------------------------------------------------------------- one buffer

  /** `recv` into the free part of the buffer. */
  function Filled(e: EndState, bytes: seq<Byte>): EndState
    requires e.total + |bytes| <= |e.buf|
  {
    e.(buf := e.buf[..e.total] + bytes + e.buf[e.total + |bytes|..],
       total := e.total + |bytes|,
       received := e.received + bytes)
  }

  /** `n` more bytes sent: when that is all, pointers go back to zero and WRITE
      interest is cleared, otherwise it is set. */
  function Advanced(e: EndState, n: nat): EndState
    requires e.sent + n <= e.total <= |e.buf|
  {
    var all := e.sent + n == e.total;
    e.(sent := if all then 0 else e.sent + n,
       total := if all then 0 else e.total,
       write := !all,
       delivered := e.delivered + e.buf[e.sent..e.sent + n])
  }

  // ------------------------------------------------------------------ steps

  predicate SendFits(e: EndState, s: SendResult) {
    s.Sent? ==> 0 < s.n && e.sent + s.n <= e.total <= |e.buf|
  }

  /** `pool_send_data` to the client or the server; with `rearm`, a successful send
      restores READ interest of the opposite end once there is space. */
  function SendData(c: ConnState, client: bool, rearm: bool, s: SendResult): ConnState
    requires SendFits(At(c, client), s)
  {
    var e, o := At(c, client), At(c, !client);
    match s
    case Sent(n) =>
      var e' := Advanced(e, n);
      var o' := if rearm && e'.total < |e.buf| then o.(read := true) else o;
      Put(Put(c, client, e'), !client, o')
        .(stats := c.stats.(send := c.stats.send + n, tx := c.stats.tx + (if client then n else 0)))
    case Again => Put(c, client, e.(write := true))
    case Pipe => if e.kind.Incomplete? then c else c.(gone := true)
    case Unhandled => c
  }

  predicate ReadFits(e: EndState, r: RecvResult, s: SendResult) {
    r.Got? && e.total < |e.buf| ==>
      0 < |r.bytes| && e.total + |r.bytes| <= |e.buf| && SendFits(Filled(e, r.bytes), s)
  }

  /** After the send of a read: a buffer left full clears READ interest of the
      source, and the bytes are counted. */
  function Tallied(c: ConnState, client: bool, n: nat): ConnState {
    var full := At(c, client).total == |At(c, client).buf|;
    var c1 := if full then Put(c, !client, At(c, !client).(read := false)) else c;
    c1.(stats := c1.stats.(recv := c1.stats.recv + n, rx := c1.stats.rx + (if client then 0 else n)))
  }

  /** Bytes from the opposite socket stored for an end and sent on at once. */
  function Forward(c: ConnState, client: bool, bytes: seq<Byte>, s: SendResult): ConnState
    requires At(c, client).total + |bytes| <= |At(c, client).buf|
    requires SendFits(Filled(At(c, client), bytes), s)
  {
    var c1 := SendData(Put(c, client, Filled(At(c, client), bytes)), client, false, s);
    if c1.gone then c1 else Tallied(c1, client, |bytes|)
  }

  /** `pool_handle_read`: `client` says whose buffer the bytes go into. */
  function HandleRead(c: ConnState, client: bool, r: RecvResult, s: SendResult): ConnState
    requires ReadFits(At(c, client), r, s)
  {
    if !(At(c, client).total < |At(c, client).buf|) then c
    else
      match r
      case Got(bytes) => Forward(c, client, bytes, s)
      case Closed => c.(gone := true)
      case WouldBlock => c
      case Failed => c
  }

  /** `pool_handle_conn_complete`; adding the connection again arms both ends
      afresh and leaves the buffers alone. */
  function Complete(c: ConnState, how: Completion): ConnState {
    match how
    case Completed => c.(dst := c.dst.(kind := Kind.Complete, read := true, write := false))
    case Reconnecting => c.(inc := c.inc.(read := true, write := false), dst := c.dst.(read := false, write := true))
    case Refused => c.(gone := true)
    case NoServer => c.(dst := c.dst.(kind := Kind.Complete), gone := true)
  }

  /** `pool_handle_write` to the client or the server. */
  function HandleWrite(c: ConnState, client: bool, how: Completion, s: SendResult): ConnState
    requires SendFits(At(c, client), s)
  {
    var pending := At(c, client).kind.Incomplete?;
    var c1 := if pending then (if client then c else Complete(c, how)) else c;
    if pending && !how.Completed? then c1
    else if At(c1, client).total > 0 then SendData(c1, client, true, s)
    else c1
  }

  // -------------------------------------------------------------- invariant

  /** Pointers in range; nothing lost, repeated or reordered. */
  ghost predicate Sane(e: EndState) {
    && |e.buf| > 0
    && (e.sent == e.total == 0 || e.sent < e.total <= |e.buf|)
    && e.received == e.delivered + e.buf[e.sent..e.total]
  }

  /** Before the server connection completes the server has got nothing, its buffer
      holds the client's stream from the first byte, and it has sent nothing. */
  ghost predicate Untouched(c: ConnState) {
    && c.dst.delivered == [] && c.dst.sent == 0 && !c.dst.read && c.dst.write
    && c.inc.received == [] && c.inc.total == 0 && !c.inc.write
  }

  ghost predicate Counted(c: ConnState) {
    && c.stats.recv == |c.inc.received| + |c.dst.received| && c.stats.rx == |c.dst.received|
    && c.stats.send == |c.inc.delivered| + |c.dst.delivered| && c.stats.tx == |c.inc.delivered|
  }

  /** Flow control of end `e` with opposite end `o`: WRITE interest exactly when
      bytes wait (always before completion); READ interest off only while the
      opposite buffer is full and being written. */
  ghost predicate Armed(e: EndState, o: EndState) {
    && (if e.kind.Incomplete? then e.write else e.write <==> e.total > 0)
    && (!e.read && !e.kind.Incomplete? ==> o.total == |o.buf| && o.write)
  }

  ghost predicate Valid(c: ConnState) {
    && c.inc.kind.Client? && !c.dst.kind.Client?
    && Sane(c.inc) && Sane(c.dst)
    && (c.dst.kind.Incomplete? ==> Untouched(c))
    && (!c.gone ==> Counted(c))
  }

  /** Flow control is intact in both directions. */
  ghost predicate Flows(c: ConnState) {
    c.gone || (Armed(c.inc, c.dst) && Armed(c.dst, c.inc))
  }

  /** An unhandled send error that leaves bytes waiting without WRITE interest: on a
      read, when the end was not armed before; on a write, when the connect has just
      completed, which cleared WRITE interest, with bytes held back. */
  ghost predicate Breaks(c: ConnState, ev: RelayEvent) {
    ev.s.Unhandled? &&
    match ev
    case ReadEvent(client, r, _) => r.Got? && At(c, client).total < |At(c, client).buf| && !At(c, client).write
    case WriteEvent(client, how, _) => At(c, client).kind.Incomplete? && how.Completed? && At(c, client).total > 0
  }

  // ---------------------------------------------------- steps keep it

  lemma FilledSane(e: EndState, bytes: seq<Byte>)
    requires Sane(e) && e.total + |bytes| <= |e.buf| && 0 < |bytes|
    ensures Sane(Filled(e, bytes))
  {
    var f := Filled(e, bytes);
    assert f.buf[f.sent..f.total] == e.buf[e.sent..e.total] + bytes;
  }

  lemma AdvancedSane(e: EndState, n: nat)
    requires Sane(e) && 0 < n && e.sent + n <= e.total
    ensures Sane(Advanced(e, n))
  {
    assert e.buf[e.sent..e.total] == e.buf[e.sent..e.sent + n] + e.buf[e.sent + n..e.total];
  }

  lemma SendSane(c: ConnState, client: bool, rearm: bool, s: SendResult)
    requires Sane(At(c, client)) && Sane(At(c, !client)) && SendFits(At(c, client), s)
    ensures Sane(At(SendData(c, client, rearm, s), client)) && Sane(At(SendData(c, client, rearm, s), !client))
  {
    if s.Sent? {
      AdvancedSane(At(c, client), s.n);
    }
  }

  /** A read event the dispatcher may deliver: the source has READ interest, and a
      socket still connecting accepts nothing. */
  ghost predicate MayRead(c: ConnState, client: bool, r: RecvResult, s: SendResult) {
    && !c.gone && At(c, !client).read && ReadFits(At(c, client), r, s)
    && (s.Sent? ==> !At(c, client).kind.Incomplete?)
  }

  ghost predicate MayWrite(c: ConnState, client: bool, s: SendResult) {
    !c.gone && At(c, client).write && SendFits(At(c, client), s)
  }

  lemma ForwardSane(c: ConnState, client: bool, bytes: seq<Byte>, s: SendResult)
    requires Sane(At(c, client)) && Sane(At(c, !client)) && 0 < |bytes|
    requires At(c, client).total + |bytes| <= |At(c, client).buf| && SendFits(Filled(At(c, client), bytes), s)
    ensures var d := Forward(c, client, bytes, s); Sane(At(d, client)) && Sane(At(d, !client))
  {
    FilledSane(At(c, client), bytes);
    SendSane(Put(c, client, Filled(At(c, client), bytes)), client, false, s);
  }

  /** The counters move with the histories. */
  lemma SendCounts(c: ConnState, client: bool, rearm: bool, s: SendResult)
    requires SendFits(At(c, client), s)
    ensures var d := SendData(c, client, rearm, s);
            var n := if s.Sent? then s.n else 0;
            && |At(d, client).delivered| == |At(c, client).delivered| + n
            && At(d, client).received == At(c, client).received
            && At(d, !client).received == At(c, !client).received
            && At(d, !client).delivered == At(c, !client).delivered
            && d.stats == c.stats.(send := c.stats.send + n, tx := c.stats.tx + (if client then n else 0))
  {
  }

  lemma ForwardCounted(c: ConnState, client: bool, bytes: seq<Byte>, s: SendResult)
    requires Counted(c)
    requires At(c, client).total + |bytes| <= |At(c, client).buf| && SendFits(Filled(At(c, client), bytes), s)
    ensures var d := Forward(c, client, bytes, s); !d.gone ==> Counted(d)
  {
    SendCounts(Put(c, client, Filled(At(c, client), bytes)), client, false, s);
  }

  /** What a send does to interests and fill levels. */
  lemma SendArms(c: ConnState, client: bool, rearm: bool, s: SendResult)
    requires SendFits(At(c, client), s)
    ensures var d := SendData(c, client, rearm, s);
            var e, e', o' := At(c, client), At(d, client), At(d, !client);
            && e'.kind == e.kind && e'.read == e.read && |e'.buf| == |e.buf|
            && e'.total == (if s.Sent? && e.sent + s.n == e.total then 0 else e.total)
            && e'.write == (if s.Sent? then e.sent + s.n < e.total else e.write || s.Again?)
            && o' == At(c, !client).(read := At(c, !client).read || (s.Sent? && rearm && e'.total < |e.buf|))
            && d.gone == (c.gone || (s.Pipe? && !e.kind.Incomplete?))
  {
    if rearm && s.Sent? {
      assert At(c, !client).(read := At(c, !client).read) == At(c, !client);
    }
  }

  lemma ForwardArmed(c: ConnState, client: bool, bytes: seq<Byte>, s: SendResult)
    requires Armed(At(c, client), At(c, !client)) && Armed(At(c, !client), At(c, client))
    requires 0 < |bytes| && At(c, !client).read && !At(c, !client).kind.Incomplete?
    requires At(c, client).total + |bytes| <= |At(c, client).buf| && SendFits(Filled(At(c, client), bytes), s)
    requires s.Sent? ==> !At(c, client).kind.Incomplete?
    ensures var d := Forward(c, client, bytes, s);
            !d.gone ==> (Armed(At(d, client), At(d, !client)) && Armed(At(d, !client), At(d, client))
                         <==> (s.Unhandled? ==> At(c, client).write))
  {
    SendArms(Put(c, client, Filled(At(c, client), bytes)), client, false, s);
  }

  lemma ForwardUntouched(c: ConnState, bytes: seq<Byte>, s: SendResult)
    requires Untouched(c) && !s.Sent? && c.dst.total + |bytes| <= |c.dst.buf|
    ensures Untouched(Forward(c, false, bytes, s))
  {
  }

  lemma ForwardStream(c: ConnState, client: bool, bytes: seq<Byte>, s: SendResult)
    requires At(c, client).total + |bytes| <= |At(c, client).buf| && SendFits(Filled(At(c, client), bytes), s)
    ensures var d := Forward(c, client, bytes, s);
            && At(d, client).kind == At(c, client).kind && At(d, !client).kind == At(c, !client).kind
            && At(d, client).received == At(c, client).received + bytes
            && At(d, !client).received == At(c, !client).received
  {
    var c1 := Put(c, client, Filled(At(c, client), bytes));
    SendCounts(c1, client, false, s);
    SendArms(c1, client, false, s);
  }

  lemma ForwardKeeps(c: ConnState, client: bool, bytes: seq<Byte>, s: SendResult)
    requires Valid(c) && MayRead(c, client, Got(bytes), s) && At(c, client).total < |At(c, client).buf|
    ensures Valid(Forward(c, client, bytes, s))
  {
    ForwardSane(c, client, bytes, s);
    ForwardCounted(c, client, bytes, s);
    ForwardStream(c, client, bytes, s);
    if c.dst.kind.Incomplete? { ForwardUntouched(c, bytes, s); }
  }

  /** Every read event keeps the relay valid and appends exactly the bytes read. */
  lemma ReadKeeps(c: ConnState, client: bool, r: RecvResult, s: SendResult)
    requires Valid(c) && MayRead(c, client, r, s)
    ensures var d := HandleRead(c, client, r, s);
            && Valid(d) && d.dst.kind == c.dst.kind
            && At(d, client).received == At(c, client).received + Taken(At(c, client), r)
            && At(d, !client).received == At(c, !client).received
  {
    if r.Got? && At(c, client).total < |At(c, client).buf| {
      ForwardKeeps(c, client, r.bytes, s);
      ForwardStream(c, client, r.bytes, s);
    } else {
      assert HandleRead(c, client, r, s) == c || HandleRead(c, client, r, s) == c.(gone := true);
      GoneKeeps(c);
    }
  }

  lemma GoneKeeps(c: ConnState)
    requires Valid(c)
    ensures Valid(c.(gone := true))
  {
  }

  /** What one read adds to the stream: nothing when the buffer is full. */
  ghost function Taken(e: EndState, r: RecvResult): seq<Byte> {
    if r.Got? && e.total < |e.buf| then r.bytes else []
  }

  /** Flow control except for WRITE interest of the end about to be sent to. */
  ghost predicate AboutToSend(e: EndState, o: EndState) {
    && !e.kind.Incomplete? && !o.kind.Incomplete? && e.total > 0
    && (o.write <==> o.total > 0)
    && (!e.read ==> o.total == |o.buf| && o.write)
    && (!o.read ==> e.total == |e.buf|)
  }

  lemma SendRearms(c: ConnState, client: bool, s: SendResult)
    requires AboutToSend(At(c, client), At(c, !client)) && SendFits(At(c, client), s)
    ensures var d := SendData(c, client, true, s);
            !d.gone ==> (Armed(At(d, client), At(d, !client)) && Armed(At(d, !client), At(d, client))
                         <==> (s.Unhandled? ==> At(c, client).write))
  {
    SendArms(c, client, true, s);
  }

  lemma SendCounted(c: ConnState, client: bool, s: SendResult)
    requires Counted(c) && SendFits(At(c, client), s)
    ensures Counted(SendData(c, client, true, s))
  {
    SendCounts(c, client, true, s);
  }

  /** A connection with bytes to send to a completed end. */
  ghost predicate Sendable(c: ConnState, client: bool) {
    && c.inc.kind.Client? && c.dst.kind.Complete? && Sane(c.inc) && Sane(c.dst) && At(c, client).total > 0
    && Counted(c)
  }

  lemma SendKeeps(c: ConnState, client: bool, s: SendResult)
    requires Sendable(c, client) && SendFits(At(c, client), s)
    ensures Valid(SendData(c, client, true, s))
  {
    SendSane(c, client, true, s);
    SendCounted(c, client, s);
    SendKinds(c, client, s);
  }

  lemma SendKinds(c: ConnState, client: bool, s: SendResult)
    requires SendFits(At(c, client), s)
    ensures var d := SendData(c, client, true, s);
            && At(d, client).kind == At(c, client).kind && At(d, !client).kind == At(c, !client).kind
  {
  }

  /** A finished asynchronous connect: the buffers and streams are untouched, and
      what is left to do is to send what was held back. */
  lemma CompleteKeeps(c: ConnState, how: Completion)
    requires Valid(c) && !c.gone && c.dst.kind.Incomplete?
    ensures var d := Complete(c, how);
            && (how.Completed? && c.dst.total > 0 ==> Sendable(d, false))
            && (!(how.Completed? && c.dst.total > 0) ==> Valid(d))
  {
    CompleteSane(c, how);
    CompleteUntouched(c, how);
    if !Complete(c, how).gone { CompleteCounted(c, how); }
  }

  lemma CompleteSane(c: ConnState, how: Completion)
    requires Sane(c.inc) && Sane(c.dst) && c.inc.kind.Client? && c.dst.kind.Incomplete?
    ensures var d := Complete(c, how);
            && Sane(d.inc) && Sane(d.dst) && d.inc.kind.Client? && !d.dst.kind.Client?
            && (d.dst.kind.Complete? <==> how.Completed? || how.NoServer?) && d.dst.total == c.dst.total
  {
  }

  lemma CompleteUntouched(c: ConnState, how: Completion)
    requires Untouched(c)
    ensures how.Reconnecting? || how.Refused? ==> Untouched(Complete(c, how))
  {
  }

  lemma CompleteCounted(c: ConnState, how: Completion)
    requires Counted(c)
    ensures Counted(Complete(c, how))
  {
  }

  lemma CompletedSendKeeps(c: ConnState, s: SendResult)
    requires Valid(c) && !c.gone && c.dst.kind.Incomplete? && c.dst.total > 0 && SendFits(c.dst, s)
    ensures Valid(SendData(Complete(c, Completed), false, true, s))
  {
    CompleteKeeps(c, Completed);
    SendKeeps(Complete(c, Completed), false, s);
  }

  lemma ArmedIsSendable(c: ConnState, client: bool)
    requires Valid(c) && !c.gone && !c.dst.kind.Incomplete? && At(c, client).total > 0
    ensures Sendable(c, client)
  {
  }

  /** Every write event keeps the relay valid and changes no received stream. */
  lemma WriteKeeps(c: ConnState, client: bool, how: Completion, s: SendResult)
    requires Valid(c) && MayWrite(c, client, s)
    ensures Valid(HandleWrite(c, client, how, s))
  {
    if At(c, client).kind.Incomplete? {
      CompleteKeeps(c, how);
      if how.Completed? && c.dst.total > 0 {
        CompletedSendKeeps(c, s);
      }
    } else if At(c, client).total > 0 {
      ArmedIsSendable(c, client);
      SendKeeps(c, client, s);
    }
  }

  lemma WriteStream(c: ConnState, client: bool, how: Completion, s: SendResult)
    requires SendFits(At(c, client), s)
    ensures var d := HandleWrite(c, client, how, s);
            At(d, client).received == At(c, client).received && At(d, !client).received == At(c, !client).received
  {
  }

  // ------------------------------------------------------------- whole runs

  datatype RelayEvent =
    | ReadEvent(client: bool, r: RecvResult, s: SendResult)
    | WriteEvent(client: bool, how: Completion, s: SendResult)

  ghost predicate May(c: ConnState, ev: RelayEvent) {
    match ev
    case ReadEvent(client, r, s) => MayRead(c, client, r, s)
    case WriteEvent(client, _, s) => MayWrite(c, client, s)
  }

  ghost function Handle(c: ConnState, ev: RelayEvent): ConnState
    requires May(c, ev)
  {
    match ev
    case ReadEvent(client, r, s) => HandleRead(c, client, r, s)
    case WriteEvent(client, how, s) => HandleWrite(c, client, how, s)
  }

  function NewEnd(buf: seq<Byte>, kind: Kind): EndState {
    EndState(buf, 0, 0, !kind.Incomplete?, kind.Incomplete?, kind, [], [])
  }

  /** A connection as the pool first adds it. */
  ghost predicate IsNew(c: ConnState) {
    && c.inc == NewEnd(c.inc.buf, Client) && |c.inc.buf| > 0
    && c.dst == NewEnd(c.dst.buf, c.dst.kind) && |c.dst.buf| > 0 && !c.dst.kind.Client?
    && !c.gone && c.stats == Stats(0, 0, 0, 0)
  }

  ghost predicate IsRun(run: seq<ConnState>, events: seq<RelayEvent>) {
    && |run| == |events| + 1 && IsNew(run[0])
    && forall k {:trigger events[k]} :: 0 <= k < |events| ==> Handled(run[k], run[k + 1], events[k])
  }

  ghost predicate Handled(c: ConnState, d: ConnState, ev: RelayEvent) {
    May(c, ev) && d == Handle(c, ev)
  }

  /** All bytes read for one end during the first `k` events. */
  ghost function Stream(run: seq<ConnState>, events: seq<RelayEvent>, client: bool, k: nat): seq<Byte>
    requires k <= |events| && |run| == |events| + 1
  {
    if k == 0 then []
    else
      Stream(run, events, client, k - 1) + Added(run[k - 1], events[k - 1], client)
  }

  /** What one event adds to the stream of an end. */
  ghost function Added(c: ConnState, ev: RelayEvent, client: bool): seq<Byte> {
    if ev.ReadEvent? && ev.client == client then Taken(At(c, client), ev.r) else []
  }

  lemma HandleKeeps(c: ConnState, d: ConnState, ev: RelayEvent)
    requires Valid(c) && Handled(c, d, ev)
    ensures Valid(d)
    ensures d.inc.received == c.inc.received + Added(c, ev, true)
    ensures d.dst.received == c.dst.received + Added(c, ev, false)
  {
    match ev
    case ReadEvent(client, r, s) => ReadKeeps(c, client, r, s);
    case WriteEvent(client, how, s) =>
      WriteKeeps(c, client, how, s);
      WriteStream(c, client, how, s);
  }

  lemma {:induction false} RunIsValid(run: seq<ConnState>, events: seq<RelayEvent>, k: nat)
    requires IsRun(run, events) && k < |run|
    ensures Valid(run[k])
  {
    if k == 0 {
      NewIsValid(run[0]);
    } else {
      RunIsValid(run, events, k - 1);
      ValidStep(run, events, k - 1);
    }
  }

  lemma NewIsValid(c: ConnState)
    requires IsNew(c)
    ensures Valid(c)
  {
  }

  lemma ValidStep(run: seq<ConnState>, events: seq<RelayEvent>, k: nat)
    requires IsRun(run, events) && k < |events| && Valid(run[k])
    ensures Valid(run[k + 1])
  {
    var ev := events[k];
    HandleKeeps(run[k], run[k + 1], ev);
  }

  lemma RunKeeps(run: seq<ConnState>, events: seq<RelayEvent>, k: nat)
    requires IsRun(run, events) && k < |run|
    ensures Valid(run[k])
    ensures run[k].inc.received == Stream(run, events, true, k)
    ensures run[k].dst.received == Stream(run, events, false, k)
  {
    RunIsValid(run, events, k);
    RunIsStream(run, events, k, true);
    RunIsStream(run, events, k, false);
  }

  lemma {:induction false} RunIsStream(run: seq<ConnState>, events: seq<RelayEvent>, k: nat, client: bool)
    requires IsRun(run, events) && k < |run|
    ensures At(run[k], client).received == Stream(run, events, client, k)
  {
    if k > 0 {
      RunIsStream(run, events, k - 1, client);
      ReceivedStep(run, events, k, client);
    }
  }

  lemma ReceivedStep(run: seq<ConnState>, events: seq<RelayEvent>, k: nat, client: bool)
    requires IsRun(run, events) && 0 < k < |run|
    ensures At(run[k], client).received
            == At(run[k - 1], client).received + Added(run[k - 1], events[k - 1], client)
  {
    RunIsValid(run, events, k - 1);
    var ev := events[k - 1];
    HandleKeeps(run[k - 1], run[k], ev);
  }

  /** Relay integrity: in each direction the bytes read so far are the bytes
      delivered followed by the bytes waiting in the buffer. */
  lemma RelayIntegrity(run: seq<ConnState>, events: seq<RelayEvent>, k: nat, client: bool)
    requires IsRun(run, events) && k < |run|
    ensures var e := At(run[k], client);
            && (e.sent == e.total == 0 || e.sent < e.total <= |e.buf|)
            && Stream(run, events, client, k) == e.delivered + e.buf[e.sent..e.total]
  {
    RunKeeps(run, events, k);
  }

  /** Failover: whichever server a connect completes with, or is retried with, has
      been sent nothing and the buffer holds the client's stream from its first
      byte; the server's side of the stream is empty. */
  lemma FailoverStartsFromFirstByte(run: seq<ConnState>, events: seq<RelayEvent>, k: nat)
    requires IsRun(run, events) && k < |run| && run[k].dst.kind.Incomplete?
    ensures run[k].dst.delivered == [] && run[k].dst.sent == 0 && run[k].dst.total <= |run[k].dst.buf|
    ensures run[k].dst.buf[..run[k].dst.total] == Stream(run, events, false, k)
    ensures Stream(run, events, true, k) == []
  {
    RunKeeps(run, events, k);
  }

  // ---------------------------------------------- how a connection ends

  /** There is room for what the opposite socket has to say. */
  predicate HasRoom(e: EndState) {
    e.total < |e.buf|
  }

  /** A read ends the connection exactly when the socket was closed, or what was read
      met a broken pipe at an end that is connected; a full buffer, an empty socket and
      an error change nothing at all. */
  lemma ReadEnds(c: ConnState, client: bool, r: RecvResult, s: SendResult)
    requires ReadFits(At(c, client), r, s)
    ensures var d, e := HandleRead(c, client, r, s), At(c, client);
            && (d.gone <==> c.gone || (HasRoom(e) && (r.Closed? || (r.Got? && s.Pipe? && !e.kind.Incomplete?))))
            && (!HasRoom(e) || r.WouldBlock? || r.Failed? ==> d == c)
            && (r.Closed? ==> d.inc == c.inc && d.dst == c.dst && d.stats == c.stats)
  {
    if r.Got? && HasRoom(At(c, client)) {
      SendArms(Put(c, client, Filled(At(c, client), r.bytes)), client, false, s);
    }
  }

  /** The first `n` bytes of those waiting in the buffer. */
  ghost function Waiting(e: EndState): seq<Byte>
    requires e.sent <= e.total <= |e.buf|
  {
    e.buf[e.sent..e.total]
  }

  /** What is read is sent on at once: the socket gets exactly as many bytes as it
      accepts, first those that waited and then those just read. */
  lemma ReadDelivers(c: ConnState, client: bool, r: RecvResult, s: SendResult)
    requires Valid(c) && MayRead(c, client, r, s)
    ensures var d, e := HandleRead(c, client, r, s), At(c, client);
            var n := if r.Got? && HasRoom(e) && s.Sent? then s.n else 0;
            && n <= |Waiting(e) + Taken(e, r)|
            && At(d, client).delivered == e.delivered + (Waiting(e) + Taken(e, r))[..n]
            && At(d, !client).delivered == At(c, !client).delivered
  {
    if r.Got? && HasRoom(At(c, client)) {
      ForwardDelivers(c, client, r.bytes, s);
    }
  }

  lemma ForwardDelivers(c: ConnState, client: bool, bytes: seq<Byte>, s: SendResult)
    requires Sane(At(c, client)) && At(c, client).total + |bytes| <= |At(c, client).buf|
    requires SendFits(Filled(At(c, client), bytes), s)
    ensures var d, e := Forward(c, client, bytes, s), At(c, client);
            var n := if s.Sent? then s.n else 0;
            && n <= |Waiting(e) + bytes| && At(d, client).delivered == e.delivered + (Waiting(e) + bytes)[..n]
            && At(d, !client).delivered == At(c, !client).delivered
  {
    var f := Filled(At(c, client), bytes);
    FilledWaits(At(c, client), bytes);
    SendDelivers(Put(c, client, f), client, false, s);
  }

  lemma FilledWaits(e: EndState, bytes: seq<Byte>)
    requires Sane(e) && e.total + |bytes| <= |e.buf|
    ensures Waiting(Filled(e, bytes)) == Waiting(e) + bytes
  {
  }

  lemma SendDelivers(c: ConnState, client: bool, rearm: bool, s: SendResult)
    requires SendFits(At(c, client), s) && At(c, client).sent <= At(c, client).total <= |At(c, client).buf|
    ensures var d, e := SendData(c, client, rearm, s), At(c, client);
            var n := if s.Sent? then s.n else 0;
            && n <= |Waiting(e)| && At(d, client).delivered == e.delivered + Waiting(e)[..n]
            && At(d, !client).delivered == At(c, !client).delivered
  {
    var e := At(c, client);
    if s.Sent? {
      FirstOf(e.buf, e.sent, e.total, s.n);
    }
  }

  lemma FirstOf(b: seq<Byte>, i: nat, j: nat, n: nat)
    requires i + n <= j <= |b|
    ensures b[i..j][..n] == b[i..i + n]
  {
  }

  /** A write event sends whenever bytes wait, after a connect only if it completed. */
  predicate Sends(c: ConnState, client: bool, how: Completion) {
    At(c, client).total > 0 && (At(c, client).kind.Incomplete? ==> how.Completed?)
  }

  /** A write ends the connection exactly when its connect failed with no other under
      way, or when a send met a broken pipe. */
  lemma WriteEnds(c: ConnState, client: bool, how: Completion, s: SendResult)
    requires Valid(c) && MayWrite(c, client, s)
    ensures var d := HandleWrite(c, client, how, s);
            var connecting := At(c, client).kind.Incomplete?;
            && (d.gone <==> (connecting && (how.Refused? || how.NoServer?)) || (Sends(c, client, how) && s.Pipe?))
            && d.inc.kind.Client?
            && d.dst.kind == if connecting && (how.Completed? || how.NoServer?) then Kind.Complete else c.dst.kind
  {
    if At(c, client).kind.Incomplete? {
      ConnectEnds(c, how, s);
    } else if At(c, client).total > 0 {
      SendArms(c, client, true, s);
    }
  }

  lemma ConnectEnds(c: ConnState, how: Completion, s: SendResult)
    requires c.dst.kind.Incomplete? && !c.gone && SendFits(c.dst, s)
    ensures var d := HandleWrite(c, false, how, s);
            && (d.gone <==> how.Refused? || how.NoServer? || (how.Completed? && c.dst.total > 0 && s.Pipe?))
            && d.inc.kind == c.inc.kind
            && d.dst.kind == if how.Completed? || how.NoServer? then Kind.Complete else c.dst.kind
  {
    if how.Completed? && c.dst.total > 0 {
      SendArms(Complete(c, how), false, true, s);
    }
  }

  /** It sends exactly as many of the waiting bytes as the socket accepts. */
  lemma WriteDelivers(c: ConnState, client: bool, how: Completion, s: SendResult)
    requires Valid(c) && MayWrite(c, client, s)
    ensures var d, e := HandleWrite(c, client, how, s), At(c, client);
            var n := if Sends(c, client, how) && s.Sent? then s.n else 0;
            && n <= |Waiting(e)| && At(d, client).delivered == e.delivered + Waiting(e)[..n]
            && At(d, !client).delivered == At(c, !client).delivered
  {
    if At(c, client).kind.Incomplete? {
      ConnectDelivers(c, how, s);
    } else if At(c, client).total > 0 {
      SendDelivers(c, client, true, s);
    }
  }

  lemma ConnectDelivers(c: ConnState, how: Completion, s: SendResult)
    requires c.dst.kind.Incomplete? && SendFits(c.dst, s) && c.dst.sent <= c.dst.total <= |c.dst.buf|
    ensures var d := HandleWrite(c, false, how, s);
            var n := if how.Completed? && c.dst.total > 0 && s.Sent? then s.n else 0;
            && n <= |Waiting(c.dst)| && d.dst.delivered == c.dst.delivered + Waiting(c.dst)[..n]
            && d.inc.delivered == c.inc.delivered
  {
    if how.Completed? && c.dst.total > 0 {
      SendDelivers(Complete(c, how), false, true, s);
    }
  }

  /** The events that end a connection. */
  ghost predicate Ends(c: ConnState, ev: RelayEvent) {
    match ev
    case ReadEvent(client, r, s) =>
      HasRoom(At(c, client)) && (r.Closed? || (r.Got? && s.Pipe? && !At(c, client).kind.Incomplete?))
    case WriteEvent(client, how, s) =>
      || (At(c, client).kind.Incomplete? && (how.Refused? || how.NoServer?))
      || (Sends(c, client, how) && s.Pipe?)
  }

  /** In every run a connection lasts until the first event that ends it: a close seen
      on either side, a broken pipe, or a connect that failed for good. */
  lemma LastsUntilEnd(run: seq<ConnState>, events: seq<RelayEvent>, k: nat)
    requires IsRun(run, events) && k < |run|
    ensures run[k].gone <==> k > 0 && Ends(run[k - 1], events[k - 1])
    ensures run[k].gone ==> k == |events|
  {
    if k > 0 {
      RunIsValid(run, events, k - 1);
      EndStep(run[k - 1], run[k], events[k - 1]);
    }
    if k < |events| {
      var ev := events[k];
      assert Handled(run[k], run[k + 1], ev);
    }
  }

  lemma EndStep(c: ConnState, d: ConnState, ev: RelayEvent)
    requires Valid(c) && Handled(c, d, ev)
    ensures d.gone <==> Ends(c, ev)
  {
    match ev
    case ReadEvent(client, r, s) => ReadEnds(c, client, r, s);
    case WriteEvent(client, how, s) => WriteEnds(c, client, how, s);
  }

  // ---------------------------------------------------------- flow control

  lemma ReadFlows(c: ConnState, client: bool, r: RecvResult, s: SendResult)
    requires Valid(c) && Flows(c) && MayRead(c, client, r, s)
    ensures Flows(HandleRead(c, client, r, s)) <==> !Breaks(c, ReadEvent(client, r, s))
  {
    if r.Got? && At(c, client).total < |At(c, client).buf| {
      ForwardArmed(c, client, r.bytes, s);
      ForwardStays(c, client, r.bytes, s);
    }
  }

  /** A send that fails for good is a broken pipe, never an unhandled error. */
  lemma ForwardStays(c: ConnState, client: bool, bytes: seq<Byte>, s: SendResult)
    requires !c.gone && At(c, client).total + |bytes| <= |At(c, client).buf|
    requires SendFits(Filled(At(c, client), bytes), s)
    ensures s.Unhandled? ==> !Forward(c, client, bytes, s).gone
  {
  }

  lemma CompletedFlows(c: ConnState, s: SendResult)
    requires Untouched(c) && c.inc.kind.Client? && c.dst.total > 0 && |c.inc.buf| > 0
    requires Armed(c.inc, c.dst) && !c.gone && SendFits(c.dst, s)
    ensures Flows(SendData(Complete(c, Completed), false, true, s)) <==> !s.Unhandled?
  {
    var d := Complete(c, Completed);
    assert AboutToSend(d.dst, d.inc);
    SendRearms(d, false, s);
    SendStays(d, false, s);
  }

  lemma RetriedFlows(c: ConnState, how: Completion)
    requires Untouched(c) && Armed(c.inc, c.dst) && Armed(c.dst, c.inc) && c.inc.kind.Client? && c.dst.kind.Incomplete?
    requires (how.Completed? ==> c.dst.total == 0) && |c.dst.buf| > 0
    ensures Flows(Complete(c, how))
  {
  }

  lemma CompleteFlows(c: ConnState, how: Completion, s: SendResult)
    requires Valid(c) && Flows(c) && MayWrite(c, false, s) && c.dst.kind.Incomplete?
    ensures Flows(HandleWrite(c, false, how, s)) <==> !Breaks(c, WriteEvent(false, how, s))
  {
    if how.Completed? && c.dst.total > 0 { CompletedFlows(c, s); } else { RetriedFlows(c, how); }
  }

  lemma WriteFlows(c: ConnState, client: bool, how: Completion, s: SendResult)
    requires Valid(c) && Flows(c) && MayWrite(c, client, s)
    ensures Flows(HandleWrite(c, client, how, s)) <==> !Breaks(c, WriteEvent(client, how, s))
  {
    if At(c, client).kind.Incomplete? {
      CompleteFlows(c, how, s);
    } else if At(c, client).total > 0 {
      SendRearms(c, client, s);
    }
  }

  lemma SendStays(c: ConnState, client: bool, s: SendResult)
    requires !c.gone && SendFits(At(c, client), s)
    ensures s.Unhandled? ==> SendData(c, client, true, s) == c
  {
  }

  /** An event keeps flow control intact if and only if it is none of the unhandled
      send errors of `Breaks`. */
  lemma UnhandledCondition(c: ConnState, d: ConnState, ev: RelayEvent)
    requires Valid(c) && Flows(c) && Handled(c, d, ev)
    ensures Flows(d) <==> !Breaks(c, ev)
  {
    match ev
    case ReadEvent(client, r, s) => ReadFlows(c, client, r, s);
    case WriteEvent(client, how, s) => WriteFlows(c, client, how, s);
  }

  lemma {:induction false} UnbrokenFlows(run: seq<ConnState>, events: seq<RelayEvent>, k: nat)
    requires IsRun(run, events) && k < |run|
    requires forall j {:trigger events[j]} :: 0 <= j < k ==> !Breaks(run[j], events[j])
    ensures Flows(run[k])
  {
    if k > 0 {
      UnbrokenFlows(run, events, k - 1);
      FlowStep(run, events, k - 1);
    }
  }

  lemma FlowStep(run: seq<ConnState>, events: seq<RelayEvent>, k: nat)
    requires IsRun(run, events) && k < |events| && Flows(run[k])
    ensures Flows(run[k + 1]) <==> !Breaks(run[k], events[k])
  {
    RunIsValid(run, events, k);
    var ev := events[k];
    UnhandledCondition(run[k], run[k + 1], ev);
  }

  /** Flow control stays intact through a whole run if and only if no event of the
      run is one of those errors. */
  lemma FlowingRuns(run: seq<ConnState>, events: seq<RelayEvent>)
    requires IsRun(run, events)
    ensures (forall k :: 0 <= k < |run| ==> Flows(run[k])) <==>
            forall k {:trigger events[k]} :: 0 <= k < |events| ==> !Breaks(run[k], events[k])
  {
    if forall k {:trigger events[k]} :: 0 <= k < |events| ==> !Breaks(run[k], events[k]) {
      forall k | 0 <= k < |run| ensures Flows(run[k]) { UnbrokenFlows(run, events, k); }
    } else {
      var k :| 0 <= k < |events| && Breaks(run[k], events[k]);
      if Flows(run[k]) {
        FlowStep(run, events, k);
        assert !Flows(run[k + 1]);
      }
    }
  }

  /** Flow control never wedges: bytes that wait are always armed for writing, and
      a socket not armed for reading faces a full buffer that is armed. */
  lemma NeverWedges(run: seq<ConnState>, events: seq<RelayEvent>, k: nat, client: bool)
    requires IsRun(run, events) && k < |run| && !run[k].gone && !run[k].dst.kind.Incomplete?
    requires forall j {:trigger events[j]} :: 0 <= j < k ==> !Breaks(run[j], events[j])
    ensures var e, o := At(run[k], client), At(run[k], !client);
            && (e.write <==> e.total > 0)
            && (!o.read ==> e.total == |e.buf| && e.write)
            && (e.read || o.read || (e.write && o.write))
  {
    RunKeeps(run, events, k);
    UnbrokenFlows(run, events, k);
  }

  // ----------------------------------------------- reading against a full buffer

  predicate Full(e: EndState) {
    e.total == |e.buf|
  }

  /** A failed connect that is retried arms the client for reading again, whether or
      not there is room for what it sends. */
  predicate Retries(c: ConnState, ev: RelayEvent) {
    ev.WriteEvent? && !ev.client && ev.how.Reconnecting? && c.dst.kind.Incomplete?
  }

  /** A retry met a full buffer and nothing has drained it since. */
  ghost predicate Spinning(run: seq<ConnState>, events: seq<RelayEvent>, k: nat)
    requires k <= |events| && |run| == |events| + 1
  {
    k > 0 && Full(run[k].dst) && (Retries(run[k - 1], events[k - 1]) || Spinning(run, events, k - 1))
  }

  lemma SendReads(c: ConnState, client: bool, rearm: bool, s: SendResult)
    requires Sane(At(c, client)) && SendFits(At(c, client), s)
    ensures var d := SendData(c, client, rearm, s);
            && At(d, client).read == At(c, client).read && (Full(At(d, !client)) <==> Full(At(c, !client)))
            && (Full(At(d, client)) ==> Full(At(c, client)) && At(d, !client).read == At(c, !client).read)
  {
    SendArms(c, client, rearm, s);
  }

  /** What an event does to reading from one end against a full buffer of the other. */
  ghost predicate ReadingMoved(c: ConnState, ev: RelayEvent, d: ConnState) {
    && (d.inc.read && Full(d.dst) <==> Full(d.dst) && (Retries(c, ev) || (c.inc.read && Full(c.dst))))
    && (d.dst.read && Full(d.inc) ==> c.dst.read && Full(c.inc))
  }

  lemma ReadMoves(c: ConnState, client: bool, r: RecvResult, s: SendResult)
    requires Valid(c) && MayRead(c, client, r, s) && !HandleRead(c, client, r, s).gone
    ensures ReadingMoved(c, ReadEvent(client, r, s), HandleRead(c, client, r, s))
  {
    if r.Got? && At(c, client).total < |At(c, client).buf| {
      var c1 := Put(c, client, Filled(At(c, client), r.bytes));
      FilledSane(At(c, client), r.bytes);
      SendReads(c1, client, false, s);
    }
  }

  lemma CompletedMoves(c: ConnState, s: SendResult)
    requires Sane(c.dst) && Untouched(c) && |c.inc.buf| > 0 && SendFits(c.dst, s)
    ensures ReadingMoved(c, WriteEvent(false, Completed, s), SendData(Complete(c, Completed), false, true, s))
  {
    SendReads(Complete(c, Completed), false, true, s);
  }

  lemma RetriedMoves(c: ConnState, how: Completion, s: SendResult)
    requires Untouched(c) && |c.inc.buf| > 0 && c.dst.kind.Incomplete? && !Complete(c, how).gone
    ensures ReadingMoved(c, WriteEvent(false, how, s), Complete(c, how))
  {
  }

  lemma CompleteMoves(c: ConnState, how: Completion, s: SendResult)
    requires Valid(c) && MayWrite(c, false, s) && c.dst.kind.Incomplete? && !HandleWrite(c, false, how, s).gone
    ensures ReadingMoved(c, WriteEvent(false, how, s), HandleWrite(c, false, how, s))
  {
    if how.Completed? && c.dst.total > 0 { CompletedMoves(c, s); } else { RetriedMoves(c, how, s); }
  }

  lemma WriteMoves(c: ConnState, client: bool, how: Completion, s: SendResult)
    requires Valid(c) && MayWrite(c, client, s) && !HandleWrite(c, client, how, s).gone
    ensures ReadingMoved(c, WriteEvent(client, how, s), HandleWrite(c, client, how, s))
  {
    if At(c, client).kind.Incomplete? {
      CompleteMoves(c, how, s);
    } else if At(c, client).total > 0 {
      SendReads(c, client, true, s);
    }
  }

  lemma ReadingStep(c: ConnState, d: ConnState, ev: RelayEvent)
    requires Valid(c) && Handled(c, d, ev) && !d.gone
    ensures ReadingMoved(c, ev, d)
  {
    match ev
    case ReadEvent(client, r, s) => ReadMoves(c, client, r, s);
    case WriteEvent(client, how, s) => WriteMoves(c, client, how, s);
  }

  lemma NotYetGone(c: ConnState, d: ConnState, ev: RelayEvent)
    requires Handled(c, d, ev)
    ensures !c.gone
  {
  }

  /** The client is read against a full buffer exactly while such a retry lasts, and
      then a read changes nothing; the server never is. */
  lemma ReadsIntoSpace(run: seq<ConnState>, events: seq<RelayEvent>, k: nat)
    requires IsRun(run, events) && k < |run| && !run[k].gone
    ensures run[k].inc.read && Full(run[k].dst) <==> Spinning(run, events, k)
    ensures Spinning(run, events, k) ==>
            forall r, s | MayRead(run[k], false, r, s) :: HandleRead(run[k], false, r, s) == run[k]
    ensures !(run[k].dst.read && Full(run[k].inc))
  {
    ReadingRun(run, events, k);
  }

  lemma {:induction false} ReadingRun(run: seq<ConnState>, events: seq<RelayEvent>, k: nat)
    requires IsRun(run, events) && k < |run| && !run[k].gone
    ensures run[k].inc.read && Full(run[k].dst) <==> Spinning(run, events, k)
    ensures !(run[k].dst.read && Full(run[k].inc))
  {
    if k == 0 {
      NewHasRoom(run[0]);
    } else {
      ReadingAt(run, events, k - 1);
      ReadingRun(run, events, k - 1);
    }
  }

  lemma NewHasRoom(c: ConnState)
    requires IsNew(c)
    ensures !Full(c.inc) && !Full(c.dst)
  {
  }

  lemma ReadingAt(run: seq<ConnState>, events: seq<RelayEvent>, k: nat)
    requires IsRun(run, events) && k < |events| && !run[k + 1].gone
    ensures !run[k].gone && ReadingMoved(run[k], events[k], run[k + 1])
  {
    RunIsValid(run, events, k);
    var ev := events[k];
    NotYetGone(run[k], run[k + 1], ev);
    ReadingStep(run[k], run[k + 1], ev);
  }

  /** Both happen: from a connection under way with a one-byte buffer that the client
      has filled, a retry spins, and a completed connect can break flow control. */
  lemma FullBeforeCompletion() returns (c: ConnState, spins: RelayEvent, breaks: RelayEvent, run: seq<ConnState>)
    ensures |run| == 3 && IsRun(run, [ReadEvent(false, Got([7]), Again), spins]) && run[1] == c
    ensures Spinning(run, [ReadEvent(false, Got([7]), Again), spins], 2)
    ensures Valid(c) && Flows(c) && May(c, breaks) && Breaks(c, breaks)
  {
    var c0 := ConnState(NewEnd([0], Client), NewEnd([0], Incomplete), false, Stats(0, 0, 0, 0));
    var fill := ReadEvent(false, Got([7]), Again);
    spins, breaks := WriteEvent(false, Reconnecting, Again), WriteEvent(false, Completed, Unhandled);
    c := Handle(c0, fill);
    run := [c0, c, Handle(c, spins)];
    UnhandledCondition(c0, c, fill);
    HandleKeeps(c0, c, fill);
  }

  /** So does a read: the first byte for a connected server meets an unhandled error. */
  lemma ReadCanBreak() returns (c: ConnState, breaks: RelayEvent)
    ensures IsNew(c) && Valid(c) && Flows(c) && May(c, breaks) && breaks.ReadEvent? && Breaks(c, breaks)
  {
    c := ConnState(NewEnd([0], Client), NewEnd([0], Kind.Complete), false, Stats(0, 0, 0, 0));
    breaks := ReadEvent(false, Got([7]), Unhandled);
  }

  /** The counters agree with the streams: read minus sent is what is buffered. */
  lemma CountersBalance(run: seq<ConnState>, events: seq<RelayEvent>, k: nat)
    requires IsRun(run, events) && k < |run| && !run[k].gone
    ensures var c := run[k];
            && c.stats.recv - c.stats.send == (c.inc.total - c.inc.sent) + (c.dst.total - c.dst.sent)
            && c.stats.rx == |Stream(run, events, false, k)|
            && c.stats.tx <= |Stream(run, events, true, k)|
  {
    RunKeeps(run, events, k);
  }
}
