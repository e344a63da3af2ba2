/** The relay in place: buffers are arrays that `recv` fills and `send` drains, and
    the handlers update the two ends.  Every handler takes the step that `Relay`
    defines. */
module ConnectionObject {
  import opened PoolTable
  import opened R = Relay

  class ConnEnd {
    const buf: array<Byte>
    var sent: nat
    var total: nat
    var read: bool
    var write: bool
    var kind: Kind
    ghost var received: seq<Byte>
    ghost var delivered: seq<Byte>

    ghost function View(): (e: EndState)
      reads this, buf
    {
      EndState(buf[..], sent, total, read, write, kind, received, delivered)
    }

    constructor (size: nat, kind: Kind)
      ensures fresh(buf) && buf.Length == size && View() == NewEnd(buf[..], kind)
    {
      buf := new Byte[size](_ => 0);
      sent, total := 0, 0;
      this.kind := kind;
      read, write := !kind.Incomplete?, kind.Incomplete?;
      received, delivered := [], [];
    }

    method Fill(bytes: seq<Byte>)
      requires total + |bytes| <= buf.Length
      modifies `total, `received, buf
      ensures View() == Filled(old(View()), bytes)
    {
      forall i | 0 <= i < |bytes| { buf[total + i] := bytes[i]; }
      received := received + bytes;
      total := total + |bytes|;
      assert buf[..] == Filled(old(View()), bytes).buf;
    }

    method Advance(n: nat)
      requires sent + n <= total <= buf.Length
      modifies `sent, `total, `write, `delivered
      ensures View() == Advanced(old(View()), n)
    {
      delivered := delivered + buf[sent..sent + n];
      sent := sent + n;
      if sent == total {
        sent, total := 0, 0;
        write := false;
      } else {
        write := true;
      }
      assert old(buf[..])[old(sent)..old(sent) + n] == old(buf[sent..sent + n]);
    }
  }

  class Connection {
    const inc: ConnEnd
    const dst: ConnEnd
    var gone: bool
    var recvBytes: nat
    var sendBytes: nat
    var rxBytes: nat
    var txBytes: nat

    ghost predicate Shape()
      reads this
    {
      inc != dst && inc.buf != dst.buf
    }

    ghost function View(): (c: ConnState)
      reads this, inc, dst, inc.buf, dst.buf
    {
      ConnState(inc.View(), dst.View(), gone, Stats(recvBytes, sendBytes, rxBytes, txBytes))
    }

    constructor (size: nat, complete: bool)
      requires size > 0
      ensures Shape() && IsNew(View()) && (dst.kind.Complete? <==> complete)
    {
      inc := new ConnEnd(size, Client);
      dst := new ConnEnd(size, if complete then Kind.Complete else Incomplete);
      gone := false;
      recvBytes, sendBytes, rxBytes, txBytes := 0, 0, 0, 0;
    }

    method SendTo(client: bool, rearm: bool, s: SendResult) returns (ret: int)
      requires Shape() && SendFits(At(View(), client), s)
      modifies this, inc, dst
      ensures View() == SendData(old(View()), client, rearm, s)
      ensures ret == -32 <==> s.Pipe? && !old(At(View(), client).kind).Incomplete?
    {
      var e, o := if client then inc else dst, if client then dst else inc;
      match s {
        case Sent(n) =>
          sendBytes := sendBytes + n;
          if client { txBytes := txBytes + n; }
          e.Advance(n);
          if rearm && !o.read && e.total < e.buf.Length { o.read := true; }
          ret := n;
        case Again =>
          e.write := true;
          ret := 0;
        case Pipe =>
          if !e.kind.Incomplete? {
            gone := true;
            ret := -32;
          } else {
            ret := 0;
          }
        case Unhandled =>
          ret := -1;
      }
    }

    method Read(client: bool, r: RecvResult, s: SendResult)
      requires Shape() && !gone && ReadFits(At(View(), client), r, s)
      modifies this, inc, dst, inc.buf, dst.buf
      ensures View() == HandleRead(old(View()), client, r, s)
    {
      var e := if client then inc else dst;
      if e.total < e.buf.Length {
        match r {
          case Got(bytes) => Store(client, bytes, s);
          case Closed => gone := true;
          case WouldBlock =>
          case Failed =>
        }
      }
    }

    method Store(client: bool, bytes: seq<Byte>, s: SendResult)
      requires Shape() && !gone && At(View(), client).total + |bytes| <= |At(View(), client).buf|
      requires SendFits(Filled(At(View(), client), bytes), s)
      modifies this, inc, dst, inc.buf, dst.buf
      ensures View() == Forward(old(View()), client, bytes, s)
    {
      FillAt(client, bytes);
      var err := SendTo(client, false, s);
      if err == -32 { return; }
      Tally(client, |bytes|);
    }

    method FillAt(client: bool, bytes: seq<Byte>)
      requires Shape() && At(View(), client).total + |bytes| <= |At(View(), client).buf|
      modifies inc, dst, inc.buf, dst.buf
      ensures View() == Put(old(View()), client, Filled(At(old(View()), client), bytes))
    {
      if client { inc.Fill(bytes); } else { dst.Fill(bytes); }
    }

    method Tally(client: bool, n: nat)
      requires Shape()
      modifies this, inc, dst
      ensures View() == Tallied(old(View()), client, n)
    {
      var e, o := if client then inc else dst, if client then dst else inc;
      if e.total == e.buf.Length { o.read := false; }
      recvBytes := recvBytes + n;
      if !client { rxBytes := rxBytes + n; }
    }

    method Write(client: bool, how: Completion, s: SendResult)
      requires Shape() && !gone && SendFits(At(View(), client), s) && inc.kind.Client?
      modifies this, inc, dst
      ensures View() == HandleWrite(old(View()), client, how, s)
    {
      var e := if client then inc else dst;
      if e.kind.Incomplete? {
        Finish(how);
        if !how.Completed? { return; }
      }
      if e.total > 0 {
        var _ := SendTo(client, true, s);
      }
    }

    method Finish(how: Completion)
      requires Shape()
      modifies `gone, inc, dst
      ensures View() == R.Complete(old(View()), how)
    {
      match how {
        case Completed =>
          dst.kind := Kind.Complete;
          dst.read, dst.write := true, false;
        case Reconnecting =>
          inc.read, inc.write := true, false;
          dst.read, dst.write := false, true;
        case Refused => gone := true;
        case NoServer =>
          dst.kind := Kind.Complete;
          gone := true;
      }
    }
  }
}
