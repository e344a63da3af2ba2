/** Commands to a pool thread (src/glb_pool.c): a sender writes to the pipe and waits
    on a condition variable while it holds the lock; the pool thread reads a
    command, handles it without the lock, and signals once under the lock. */
module ControlPipe {
  import opened RouterState

  type Sender = nat
  type Command = nat

  /** Seen whenever the lock is free. */
  datatype Channel = Channel(
    pipe: seq<Command>,              // written, not yet read
    current: Option<Command>,        // read, not yet confirmed
    waiting: map<Sender, Command>,   // in pthread_cond_wait, not signalled
    woken: map<Sender, Command>,     // signalled, not yet returned
    confirmed: seq<Command>,
    issued: nat,                     // commands numbered so far
    failed: nat,                     // waits begun although the write failed
    returned: nat)

  datatype Event =
    | Send(s: Sender, written: bool)
    | Take
    | Confirm(wakes: Option<Sender>)
    | Return(s: Sender)

  const Empty: Channel := Channel([], None, map[], map[], [], 0, 0, 0)

  ghost predicate May(st: Channel, e: Event) {
    match e
    case Send(s, _) => s !in st.waiting && s !in st.woken
    case Take => st.current.None? && st.pipe != []
    // a signal wakes exactly one waiter if there is one
    case Confirm(w) =>
      st.current.Some? && (if w.Some? then w.value in st.waiting else st.waiting == map[])
    case Return(s) => s in st.woken
  }

  ghost function Next(st: Channel, e: Event): Channel
    requires May(st, e)
  {
    match e
    case Send(s, written) =>
      var c := st.issued;
      st.(pipe := if written then st.pipe + [c] else st.pipe,
          waiting := st.waiting[s := c],
          issued := c + 1,
          failed := st.failed + (if written then 0 else 1))
    case Take => st.(current := Some(st.pipe[0]), pipe := st.pipe[1..])
    case Confirm(w) =>
      var st1 := st.(current := None, confirmed := st.confirmed + [st.current.value]);
      if w.None? then st1
      else st1.(waiting := st.waiting - {w.value}, woken := st.woken[w.value := st.waiting[w.value]])
    case Return(s) => st.(woken := st.woken - {s}, returned := st.returned + 1)
  }

  function Pending(st: Channel): nat {
    |st.pipe| + (if st.current.Some? then 1 else 0)
  }

  /** Waiting senders are exactly the unconfirmed commands (and failed writes), and
      every confirmation has released one sender. */
  ghost predicate Inv(st: Channel) {
    && |st.waiting| == Pending(st) + st.failed
    && |st.woken| + st.returned == |st.confirmed|
    && (forall s :: s in st.waiting ==> s !in st.woken)
  }

  lemma MapSize<K, V>(m: map<K, V>, k: K, v: V)
    ensures |m[k := v]| == if k in m then |m| else |m| + 1
    ensures |m - {k}| == if k in m then |m| - 1 else |m|
  {
    assert m[k := v].Keys == m.Keys + {k};
    assert (m - {k}).Keys == m.Keys - {k};
    assert |m.Keys| == |m| && |m[k := v].Keys| == |m[k := v]| && |(m - {k}).Keys| == |m - {k}|;
    if k !in m { assert m.Keys - {k} == m.Keys; }
  }

  lemma StepKeeps(st: Channel, e: Event)
    requires Inv(st) && May(st, e)
    ensures Inv(Next(st, e))
  {
    match e
    case Send(s, _) => MapSize(st.waiting, s, st.issued);
    case Take =>
    case Confirm(w) =>
      ConfirmFindsWaiter(st, w);
      MapSize(st.waiting, w.value, 0);
      MapSize(st.woken, w.value, st.waiting[w.value]);
    case Return(s) => MapSize(st.woken, s, 0);
  }

  ghost predicate IsRun(run: seq<Channel>, events: seq<Event>) {
    && |run| == |events| + 1 && run[0] == Empty
    && forall k {:trigger events[k]} :: 0 <= k < |events| ==>
         May(run[k], events[k]) && run[k + 1] == Next(run[k], events[k])
  }

  /** No lost confirmation: in every interleaving the waiting senders equal the
      unconfirmed commands plus the failed writes, and each confirmation finds a
      waiter. */
  lemma NoLostConfirmation(run: seq<Channel>, events: seq<Event>, k: nat)
    requires IsRun(run, events) && k < |run|
    ensures Inv(run[k])
    ensures k < |events| && events[k].Confirm? ==> events[k].wakes.Some?
  {
    RunInv(run, events, k);
    if k < |events| && events[k].Confirm? {
      ConfirmFindsWaiter(run[k], events[k].wakes);
    }
  }

  lemma {:induction false} RunInv(run: seq<Channel>, events: seq<Event>, k: nat)
    requires IsRun(run, events) && k < |run|
    ensures Inv(run[k])
  {
    if k > 0 {
      RunInv(run, events, k - 1);
      StepKeeps(run[k - 1], events[k - 1]);
    }
  }

  lemma ConfirmFindsWaiter(st: Channel, wakes: Option<Sender>)
    requires Inv(st) && May(st, Confirm(wakes))
    ensures wakes.Some?
  {
  }

  // --------------------------------------------------------- handled in order

  function IfSent(e: Event): nat {
    if e.Send? then 1 else 0
  }

  /** How many commands the first `k` events send. */
  function Sends(events: seq<Event>, k: nat): nat
    requires k <= |events|
  {
    if k == 0 then 0 else Sends(events, k - 1) + IfSent(events[k - 1])
  }

  /** The commands they write, numbered as they were sent. */
  function Written(events: seq<Event>, k: nat): seq<Command>
    requires k <= |events|
  {
    if k == 0 then []
    else Written(events, k - 1) + WrittenBy(events[k - 1], Sends(events, k - 1))
  }

  function WrittenBy(e: Event, c: Command): seq<Command> {
    if e.Send? && e.written then [c] else []
  }

  /** Confirmed, being handled, waiting to be read. */
  ghost function Line(st: Channel): seq<Command> {
    st.confirmed + (if st.current.Some? then [st.current.value] else []) + st.pipe
  }

  lemma StepInLine(st: Channel, e: Event)
    requires May(st, e)
    ensures Line(Next(st, e)) == Line(st) + WrittenBy(e, st.issued)
    ensures Next(st, e).issued == st.issued + IfSent(e)
  {
    if e.Take? { assert st.pipe == [st.pipe[0]] + st.pipe[1..]; }
  }

  /** Commands are handled one at a time in the order they were written, none is lost
      and none is handled twice: at every point of every run those confirmed, the one
      being handled and those in the pipe are together exactly those written. */
  lemma {:induction false} HandledInOrder(run: seq<Channel>, events: seq<Event>, k: nat)
    requires IsRun(run, events) && k < |run|
    ensures Line(run[k]) == Written(events, k) && run[k].issued == Sends(events, k)
  {
    if k > 0 {
      HandledInOrder(run, events, k - 1);
      StepInLine(run[k - 1], events[k - 1]);
    }
  }

  // ------------------------------------------------------ one sender at a time

  /** Every send starts with no other sender waiting or on its way out, and is
      written. */
  ghost predicate OneAtATime(run: seq<Channel>, events: seq<Event>) {
    forall k {:trigger events[k]} :: 0 <= k < |events| && k < |run| && events[k].Send? ==>
      events[k].written && run[k].waiting == map[] && run[k].woken == map[]
  }

  /** At most one command is outstanding, and it is its sender's own. */
  ghost predicate SoloInv(st: Channel) {
    && (forall s :: s in st.woken ==> st.woken[s] in st.confirmed && st.waiting == map[])
    && (forall s :: s in st.waiting ==> st.pipe == [st.waiting[s]] || st.current == Some(st.waiting[s]))
    && Pending(st) <= 1 && st.failed == 0
  }

  lemma SoloStep(st: Channel, e: Event)
    requires Inv(st) && SoloInv(st) && May(st, e)
    requires e.Send? ==> e.written && st.waiting == map[] && st.woken == map[]
    ensures SoloInv(Next(st, e))
  {
    StepKeeps(st, e);
    match e
    case Send(_, _) =>
    case Take =>
    case Confirm(w) =>
      var t := Next(st, e);
      assert |t.waiting| == 0;
      assert st.current.value in t.confirmed;
      forall s | s in t.woken
        ensures t.woken[s] in t.confirmed
      {
      }
    case Return(_) =>
  }

  /** With one sender at a time a sender is released only after its own command was
      handled. */
  lemma {:induction false} ReleasedAfterOwnCommand(run: seq<Channel>, events: seq<Event>, k: nat, s: Sender)
    requires IsRun(run, events) && OneAtATime(run, events) && k < |run| && s in run[k].woken
    ensures run[k].woken[s] in run[k].confirmed
  {
    SoloRun(run, events, k);
  }

  lemma {:induction false} SoloRun(run: seq<Channel>, events: seq<Event>, k: nat)
    requires IsRun(run, events) && OneAtATime(run, events) && k < |run|
    ensures SoloInv(run[k])
  {
    if k > 0 {
      SoloRun(run, events, k - 1);
      NoLostConfirmation(run, events, k - 1);
      SoloStep(run[k - 1], events[k - 1]);
    }
  }

  // ------------------------------------------------------------ any senders

  ghost predicate IsPending(st: Channel, c: Command) {
    c in st.pipe || st.current == Some(c)
  }

  /** The confirmation wakes a sender other than the one whose command was handled. */
  ghost predicate Crosses(st: Channel, e: Event) {
    e.Confirm? && e.wakes.Some? && e.wakes.value in st.waiting && Some(st.waiting[e.wakes.value]) != st.current
  }

  /** The sender of a pending command waits for it. */
  ghost predicate Awaited(st: Channel, c: Command) {
    c < st.issued && c !in st.confirmed && exists s :: s in st.waiting && st.waiting[s] == c
  }

  /** Before the first crossing: commands are numbered once, pending ones are awaited, and
      senders were released by their own commands. */
  ghost predicate Tidy(st: Channel) {
    && (forall c: Command :: IsPending(st, c) ==> Awaited(st, c))
    && (forall s :: s in st.waiting ==> st.waiting[s] < st.issued && st.waiting[s] !in st.confirmed)
    && (forall s, t :: s in st.waiting && t in st.waiting && st.waiting[s] == st.waiting[t] ==> s == t)
    && (forall i, j :: 0 <= i < j < |st.pipe| ==> st.pipe[i] != st.pipe[j])
    && (st.current.Some? ==> st.current.value !in st.pipe)
    && (forall c :: c in st.confirmed ==> c < st.issued)
    && OwnReleased(st)
  }

  /** Every sender on its way out was released after its own command was handled. */
  ghost predicate OwnReleased(st: Channel) {
    forall s :: s in st.woken ==> st.woken[s] in st.confirmed
  }

  /** Whichever waiter the signal wakes, it is one whose own command has been handled,
      if and only if there is just one waiter. */
  lemma WakeCondition(st: Channel)
    requires Inv(st) && Tidy(st) && st.current.Some?
    ensures (forall w :: w in st.waiting ==> !Crosses(st, Confirm(Some(w)))) <==> |st.waiting| == 1
  {
    assert IsPending(st, st.current.value);
    var s :| s in st.waiting && st.waiting[s] == st.current.value;
    MapSize(st.waiting, s, 0);
    var rest := st.waiting - {s};
    if rest == map[] {
      assert forall w :: w in st.waiting ==> w == s;
    } else {
      var w :| w in rest.Keys;
      assert w in st.waiting && w != s && st.waiting[w] != st.waiting[s];
      assert Crosses(st, Confirm(Some(w)));
    }
  }

  lemma SendTidy(st: Channel, e: Event)
    requires Tidy(st) && May(st, e) && e.Send?
    ensures Tidy(Next(st, e))
  {
    var t := Next(st, e);
    forall c: Command | IsPending(t, c)
      ensures Awaited(t, c)
    {
      if c == st.issued {
        assert t.waiting[e.s] == c;
      } else {
        assert IsPending(st, c);
        var s :| s in st.waiting && st.waiting[s] == c;
        assert t.waiting[s] == c;
      }
    }
    forall i, j | 0 <= i < j < |t.pipe|
      ensures t.pipe[i] != t.pipe[j]
    {
      assert t.pipe[i] == st.pipe[i] && IsPending(st, st.pipe[i]);
    }
    if st.current.Some? { assert IsPending(st, st.current.value); }
  }

  lemma TakeTidy(st: Channel)
    requires Tidy(st) && May(st, Take)
    ensures Tidy(Next(st, Take))
  {
    var t := Next(st, Take);
    forall c: Command | IsPending(t, c) ensures Awaited(t, c) { assert IsPending(st, c) && Awaited(st, c); }
  }

  lemma ConfirmTidy(st: Channel, w: Sender)
    requires Tidy(st) && May(st, Confirm(Some(w))) && !Crosses(st, Confirm(Some(w)))
    ensures Tidy(Next(st, Confirm(Some(w))))
  {
    var t := Next(st, Confirm(Some(w)));
    assert IsPending(st, st.current.value);
    forall c: Command | IsPending(t, c)
      ensures Awaited(t, c)
    {
      assert IsPending(st, c) && c != st.current.value;
      var s :| s in st.waiting && st.waiting[s] == c;
      assert s != w && t.waiting[s] == c;
    }
  }

  lemma StepTidy(st: Channel, e: Event)
    requires Inv(st) && Tidy(st) && May(st, e) && !Crosses(st, e)
    ensures Tidy(Next(st, e))
  {
    match e
    case Send(_, _) => SendTidy(st, e);
    case Take => TakeTidy(st);
    case Confirm(w) =>
      ConfirmFindsWaiter(st, w);
      ConfirmTidy(st, w.value);
    case Return(s) => ReturnTidy(st, s);
  }

  lemma ReturnTidy(st: Channel, s: Sender)
    requires Tidy(st) && May(st, Return(s))
    ensures Tidy(Next(st, Return(s)))
  {
    var t := Next(st, Return(s));
    forall c: Command | IsPending(t, c) ensures Awaited(t, c) { assert IsPending(st, c) && Awaited(st, c); }
  }

  lemma {:induction false} TidyRun(run: seq<Channel>, events: seq<Event>, k: nat)
    requires IsRun(run, events) && k < |run|
    requires forall j {:trigger events[j]} :: 0 <= j < k ==> !Crosses(run[j], events[j])
    ensures Tidy(run[k])
  {
    if k == 0 {
      EmptyIsTidy();
    } else {
      TidyRun(run, events, k - 1);
      NoLostConfirmation(run, events, k - 1);
      StepTidy(run[k - 1], events[k - 1]);
    }
  }

  lemma EmptyIsTidy()
    ensures Tidy(Empty)
  {
  }

  /** A crossing releases a sender whose own command has not been handled. */
  lemma CrossingBreaks(st: Channel, e: Event)
    requires Tidy(st) && May(st, e) && Crosses(st, e)
    ensures !OwnReleased(Next(st, e))
  {
    var t := Next(st, e);
    var w := e.wakes.value;
    assert t.woken[w] == st.waiting[w] && st.waiting[w] !in t.confirmed;
  }

  /** Up to any point of a run, senders have been released only after their own commands
      if and only if no confirmation has crossed. */
  lemma {:induction false} OwnCommandRuns(run: seq<Channel>, events: seq<Event>, k: nat)
    requires IsRun(run, events) && k < |run|
    ensures (forall j :: 0 <= j <= k ==> OwnReleased(run[j])) <==>
            forall j {:trigger events[j]} :: 0 <= j < k ==> !Crosses(run[j], events[j])
  {
    if k > 0 {
      OwnCommandRuns(run, events, k - 1);
      if forall j {:trigger events[j]} :: 0 <= j < k - 1 ==> !Crosses(run[j], events[j]) {
        NextReleased(run, events, k);
      }
    }
  }

  lemma NextReleased(run: seq<Channel>, events: seq<Event>, k: nat)
    requires IsRun(run, events) && 0 < k < |run|
    requires forall j {:trigger events[j]} :: 0 <= j < k - 1 ==> !Crosses(run[j], events[j])
    ensures OwnReleased(run[k]) <==> !Crosses(run[k - 1], events[k - 1])
  {
    TidyRun(run, events, k - 1);
    NoLostConfirmation(run, events, k - 1);
    ReleasedByStep(run[k - 1], events[k - 1]);
  }

  lemma ReleasedByStep(st: Channel, e: Event)
    requires Inv(st) && Tidy(st) && May(st, e)
    ensures OwnReleased(Next(st, e)) <==> !Crosses(st, e)
  {
    if Crosses(st, e) { CrossingBreaks(st, e); } else { StepTidy(st, e); }
  }

  /** With two senders the signal for one command can release the other sender. */
  lemma TwoSendersCanCross() returns (run: seq<Channel>, events: seq<Event>, s: Sender)
    ensures IsRun(run, events)
    ensures s in run[|run| - 1].woken && run[|run| - 1].woken[s] !in run[|run| - 1].confirmed
  {
    events := [Send(0, true), Send(1, true), Take, Confirm(Some(1))];
    var a := Next(Empty, events[0]);
    var b := Next(a, events[1]);
    var c := Next(b, events[2]);
    var d := Next(c, events[3]);
    run, s := [Empty, a, b, c, d], 1;
    assert d.woken[1] == 1 && d.confirmed == [0];
  }
}
