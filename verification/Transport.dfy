/**
 The two streamers of grpc_broker.go and the gRPC stream between them: any number of concurrent
 Send calls, the goroutine that writes to the stream, the loop that reads from it, the broker's
 Run, and Close.  Both streamers have the same code, so one model of a side serves for both.
*/
module Transport {
  import opened Basics
  import Broker

  type Msg = Broker.ConnInfo

  /** A Send call: in its select, waiting for the reply, or returned with its reply channel closed. */
  datatype Call =
    | Offering(msg: Msg)
    | Waiting(msg: Msg)
    | Refused(msg: Msg)
    | Returned(msg: Msg, ok: bool)

  /** The goroutine that takes from the send channel. */
  datatype Sender = Idle | Writing(c: nat) | Replying(c: nat, ok: bool) | SenderGone

  /** The receive loop of StartStream. */
  datatype Receiver = Reading | Passing(msg: Msg) | ReceiverGone

  /** A stream.Send: which call it was for, what was written and whether it worked. */
  datatype Wrote = Wrote(c: nat, msg: Msg, ok: bool)

  /** `fetched` counts the messages read from the peer, `received` are those that Run got. */
  datatype Side = Side(calls: seq<Call>, sender: Sender, writes: seq<Wrote>, receiver: Receiver,
                       fetched: nat, received: seq<Msg>, done: bool, quit: bool, closes: nat, panicked: bool)

  function Init(): Side
  {
    Side([], Idle, [], Reading, 0, [], false, false, 0, false)
  }

  /** The messages that entered the stream, in order. */
  function Sent(writes: seq<Wrote>): seq<Msg>
  {
    if writes == [] then []
    else
      var n := |writes| - 1;
      Sent(writes[..n]) + if writes[n].ok then [writes[n].msg] else []
  }

  datatype Event =
    | Send(msg: Msg)
    | SeeQuit(i: nat)
    | HandOver(i: nat)
    | Write(ok: bool)
    | Reply
    | SenderStops
    | Fetch
    | Deliver
    | ReceiverStops
    | ReadFails
    | Close
    | ContextDone

  predicate Enabled(s: Side, e: Event, incoming: seq<Msg>)
  {
    match e
    case Send(_) => true
    case SeeQuit(i) => i < |s.calls| && s.calls[i].Offering? && s.quit
    case HandOver(i) => i < |s.calls| && s.calls[i].Offering? && s.sender.Idle?
    case Write(_) => s.sender.Writing? && s.sender.c < |s.calls|
    case Reply => s.sender.Replying? && s.sender.c < |s.calls|
    case SenderStops => s.sender.Idle? && (s.done || s.quit)
    case Fetch => s.receiver.Reading? && s.fetched < |incoming|
    case Deliver => s.receiver.Passing?
    case ReceiverStops => s.receiver.Passing? && (s.done || s.quit)
    case ReadFails => s.receiver.Reading?
    case Close => true
    case ContextDone => true
  }

  /** Closes quit unless the sync.Once has fired. */
  function Shut(s: Side): Side
  {
    if s.quit then s else s.(quit := true, closes := s.closes + 1)
  }

  function Next(s: Side, e: Event, incoming: seq<Msg>): Side
    requires Enabled(s, e, incoming)
  {
    match e
    case Send(msg) => s.(calls := s.calls + [Offering(msg)])
    case SeeQuit(i) => s.(calls := s.calls[i := Refused(s.calls[i].msg)])
    case HandOver(i) => s.(calls := s.calls[i := Waiting(s.calls[i].msg)], sender := Writing(i))
    case Write(ok) =>
      s.(sender := Replying(s.sender.c, ok), writes := s.writes + [Wrote(s.sender.c, s.calls[s.sender.c].msg, ok)])
    case Reply =>
      // A send on a closed channel panics; on an open one it meets the waiting call.
      if s.calls[s.sender.c].Waiting?
      then s.(calls := s.calls[s.sender.c := Returned(s.calls[s.sender.c].msg, s.sender.ok)], sender := Idle)
      else s.(panicked := true)
    case SenderStops => s.(sender := SenderGone)
    case Fetch => s.(receiver := Passing(incoming[s.fetched]), fetched := s.fetched + 1)
    case Deliver => s.(receiver := Reading, received := s.received + [s.receiver.msg])
    case ReceiverStops => Shut(s).(receiver := ReceiverGone)
    case ReadFails => Shut(s).(receiver := ReceiverGone)
    case Close => Shut(s)
    case ContextDone => s.(done := true)
  }

  // ---------------------------------------------------------------- one side

  function ForCall(i: nat): Wrote -> bool
  {
    (w: Wrote) => w.c == i
  }

  predicate Busy(s: Side, i: nat)
  {
    (s.sender.Writing? || s.sender.Replying?) && s.sender.c == i
  }

  /** A call waits exactly while the sender works for it, and was written at most once. */
  ghost predicate CallOk(s: Side, i: nat)
    requires i < |s.calls|
  {
    && (s.calls[i].Waiting? <==> Busy(s, i))
    && CountIf(s.writes, ForCall(i)) == Bit(s.calls[i].Returned? || (s.sender.Replying? && s.sender.c == i))
    && (s.calls[i].Returned? ==> Wrote(i, s.calls[i].msg, s.calls[i].ok) in s.writes)
    && (s.sender.Replying? && s.sender.c == i ==> Wrote(i, s.calls[i].msg, s.sender.ok) in s.writes)
  }

  ghost predicate SideOk(s: Side)
  {
    && (forall i :: 0 <= i < |s.calls| ==> CallOk(s, i))
    && (s.sender.Writing? || s.sender.Replying? ==> s.sender.c < |s.calls|)
    && (forall w :: w in s.writes ==> w.c < |s.calls|)
    && (s.receiver.ReceiverGone? ==> s.quit)
    && (s.sender.SenderGone? ==> s.done || s.quit)
    && s.closes == Bit(s.quit)
    && !s.panicked
  }

  lemma {:induction false} CallStep(s: Side, e: Event, incoming: seq<Msg>, i: nat)
    requires SideOk(s) && Enabled(s, e, incoming) && i < |Next(s, e, incoming).calls|
    ensures CallOk(Next(s, e, incoming), i)
  {
    if i < |s.calls| {
      assert CallOk(s, i);
    } else {
      assert CountIf(s.writes, ForCall(i)) == 0;
    }
    match e {
      case HandOver(j) =>
        assert CallOk(s, j);
      case Write(ok) =>
        CountAppend(s.writes, Wrote(s.sender.c, s.calls[s.sender.c].msg, ok), ForCall(i));
      case _ =>
    }
  }

  lemma {:induction false} SideStep(s: Side, e: Event, incoming: seq<Msg>)
    requires SideOk(s) && Enabled(s, e, incoming)
    ensures SideOk(Next(s, e, incoming))
  {
    forall i | 0 <= i < |Next(s, e, incoming).calls| ensures CallOk(Next(s, e, incoming), i) {
      CallStep(s, e, incoming, i);
    }
    if e.Reply? {
      assert CallOk(s, s.sender.c);
    }
  }

  // ---------------------------------------------------------------- both sides

  datatype Pair = Pair(a: Side, b: Side)

  datatype Move = A(e: Event) | B(e: Event)

  predicate CanMove(p: Pair, m: Move)
  {
    match m
    case A(e) => Enabled(p.a, e, Sent(p.b.writes))
    case B(e) => Enabled(p.b, e, Sent(p.a.writes))
  }

  function Moved(p: Pair, m: Move): Pair
    requires CanMove(p, m)
  {
    match m
    case A(e) => p.(a := Next(p.a, e, Sent(p.b.writes)))
    case B(e) => p.(b := Next(p.b, e, Sent(p.a.writes)))
  }

  predicate Runs(p: Pair, ms: seq<Move>)
    decreases ms
  {
    ms == [] || (CanMove(p, ms[0]) && Runs(Moved(p, ms[0]), ms[1..]))
  }

  function After(p: Pair, ms: seq<Move>): Pair
    requires Runs(p, ms)
    decreases ms
  {
    if ms == [] then p else After(Moved(p, ms[0]), ms[1..])
  }

  /** What was fetched is what Run got, then the message in hand; a dropped one is the last. */
  ghost predicate InOrder(s: Side, incoming: seq<Msg>)
  {
    && s.fetched <= |incoming|
    && match s.receiver
       case Reading => s.received == incoming[..s.fetched]
       case Passing(msg) => s.received + [msg] == incoming[..s.fetched]
       case ReceiverGone => s.received <= incoming
  }

  lemma {:induction false} InOrderStep(s: Side, e: Event, incoming: seq<Msg>)
    requires InOrder(s, incoming) && Enabled(s, e, incoming)
    ensures InOrder(Next(s, e, incoming), incoming)
  {
    if e.Fetch? {
      assert incoming[..s.fetched + 1] == incoming[..s.fetched] + [incoming[s.fetched]];
    }
    if e.ReceiverStops? {
      assert s.received <= incoming[..s.fetched];
    }
  }

  lemma {:induction false} InOrderGrows(s: Side, incoming: seq<Msg>, more: seq<Msg>)
    requires InOrder(s, incoming) && incoming <= more
    ensures InOrder(s, more)
  {
    assert more[..s.fetched] == incoming[..s.fetched];
  }

  lemma SentGrows(s: Side, e: Event, incoming: seq<Msg>)
    requires Enabled(s, e, incoming)
    ensures Sent(s.writes) <= Sent(Next(s, e, incoming).writes)
  {
    if e.Write? {
      assert Next(s, e, incoming).writes[..|s.writes|] == s.writes;
    }
  }

  ghost predicate PairOk(p: Pair)
  {
    SideOk(p.a) && SideOk(p.b) && InOrder(p.a, Sent(p.b.writes)) && InOrder(p.b, Sent(p.a.writes))
  }

  lemma {:induction false} PairStep(p: Pair, m: Move)
    requires PairOk(p) && CanMove(p, m)
    ensures PairOk(Moved(p, m))
  {
    var p' := Moved(p, m);
    match m {
      case A(e) =>
        SideStep(p.a, e, Sent(p.b.writes));
        InOrderStep(p.a, e, Sent(p.b.writes));
        SentGrows(p.a, e, Sent(p.b.writes));
        InOrderGrows(p.b, Sent(p.a.writes), Sent(p'.a.writes));
      case B(e) =>
        SideStep(p.b, e, Sent(p.a.writes));
        InOrderStep(p.b, e, Sent(p.a.writes));
        SentGrows(p.b, e, Sent(p.a.writes));
        InOrderGrows(p.a, Sent(p.b.writes), Sent(p'.b.writes));
    }
  }

  lemma {:induction false} PairRun(p: Pair, ms: seq<Move>)
    requires PairOk(p) && Runs(p, ms)
    ensures PairOk(After(p, ms))
    decreases ms
  {
    if ms != [] {
      PairStep(p, ms[0]);
      PairRun(Moved(p, ms[0]), ms[1..]);
    }
  }

  // ---------------------------------------------------------------- what the transport promises

  lemma {:induction false} Prefixes(p: Pair)
    requires PairOk(p)
    ensures p.a.received <= Sent(p.b.writes) && p.b.received <= Sent(p.a.writes)
  {
  }

  /** Across any concurrent senders and any close: each Run has received a prefix of what the peer
      put on the stream. */
  lemma {:induction false} ReceivedIsAPrefix(ms: seq<Move>)
    requires Runs(Pair(Init(), Init()), ms)
    ensures var p := After(Pair(Init(), Init()), ms);
            p.a.received <= Sent(p.b.writes) && p.b.received <= Sent(p.a.writes)
  {
    PairRun(Pair(Init(), Init()), ms);
    Prefixes(After(Pair(Init(), Init()), ms));
  }

  function SideOf(p: Pair, first: bool): Side
  {
    if first then p.a else p.b
  }

  /** On either side, a Send that returned the stream's verdict had its own message written exactly once,
      with that verdict; one that was told the broker is closed had nothing written.  No reply ever meets
      a closed reply channel, and quit is closed once. */
  lemma {:induction false} SendGetsItsOwnResult(ms: seq<Move>, first: bool, i: nat)
    requires Runs(Pair(Init(), Init()), ms) && i < |SideOf(After(Pair(Init(), Init()), ms), first).calls|
    ensures var s := SideOf(After(Pair(Init(), Init()), ms), first);
            && !s.panicked && s.closes <= 1
            && (s.calls[i].Returned? ==>
                  && Wrote(i, s.calls[i].msg, s.calls[i].ok) in s.writes
                  && CountIf(s.writes, ForCall(i)) == 1)
            && (s.calls[i].Refused? || s.calls[i].Offering? ==> CountIf(s.writes, ForCall(i)) == 0)
  {
    PairRun(Pair(Init(), Init()), ms);
    assert CallOk(SideOf(After(Pair(Init(), Init()), ms), first), i);
  }

  /** On either side, no Send is left waiting for a reply that nobody will give: once taken, the sender is
      at work on it, and once quit is closed every Send still in its select may leave. */
  lemma {:induction false} NoSendIsStranded(ms: seq<Move>, first: bool, i: nat)
    requires Runs(Pair(Init(), Init()), ms) && i < |SideOf(After(Pair(Init(), Init()), ms), first).calls|
    ensures var p := After(Pair(Init(), Init()), ms);
            var s, incoming := SideOf(p, first), Sent(SideOf(p, !first).writes);
            && (s.calls[i].Waiting? ==> Enabled(s, Write(true), incoming) || Enabled(s, Reply, incoming))
            && (s.calls[i].Offering? && (s.quit || s.receiver.ReceiverGone?) ==> Enabled(s, SeeQuit(i), incoming))
  {
    PairRun(Pair(Init(), Init()), ms);
    assert CallOk(SideOf(After(Pair(Init(), Init()), ms), first), i);
  }

  // ---------------------------------------------------------------- what closes a side

  function OnSide(m: Move, first: bool): Option<Event>
  {
    match m
    case A(e) => if first then Some(e) else None
    case B(e) => if first then None else Some(e)
  }

  /** The steps after which nobody is to send or pass on: Close, a read that fails, and a receive loop that
      leaves with a message in hand. */
  predicate Shuts(m: Move, first: bool)
  {
    OnSide(m, first) in {Some(Close), Some(ReadFails), Some(ReceiverStops)}
  }

  lemma {:induction false} SideShuts(s: Side, e: Event, incoming: seq<Msg>)
    requires Enabled(s, e, incoming)
    ensures Next(s, e, incoming).quit <==> s.quit || e.Close? || e.ReadFails? || e.ReceiverStops?
    ensures Next(s, e, incoming).done <==> s.done || e.ContextDone?
  {
    match e
    case Send(_) => case SeeQuit(_) => case HandOver(_) => case Write(_) => case Reply => case SenderStops =>
    case Fetch => case Deliver => case ReceiverStops => case ReadFails => case Close => case ContextDone =>
  }

  lemma {:induction false} QuitStep(p: Pair, m: Move, first: bool)
    requires CanMove(p, m)
    ensures SideOf(Moved(p, m), first).quit <==> SideOf(p, first).quit || Shuts(m, first)
    ensures SideOf(Moved(p, m), first).done <==> SideOf(p, first).done || OnSide(m, first) == Some(ContextDone)
  {
    match m
    case A(e) => SideShuts(p.a, e, Sent(p.b.writes));
    case B(e) => SideShuts(p.b, e, Sent(p.a.writes));
  }

  lemma {:induction false} QuitRun(p: Pair, ms: seq<Move>, first: bool)
    requires Runs(p, ms)
    ensures SideOf(After(p, ms), first).quit <==> SideOf(p, first).quit || exists i :: 0 <= i < |ms| && Shuts(ms[i], first)
    decreases ms
  {
    if ms != [] {
      QuitStep(p, ms[0], first);
      QuitRun(Moved(p, ms[0]), ms[1..], first);
      if i :| 0 <= i < |ms[1..]| && Shuts(ms[1..][i], first) {
        assert Shuts(ms[i + 1], first);
      }
      if i :| 0 <= i < |ms| && Shuts(ms[i], first) {
        assert i > 0 ==> Shuts(ms[1..][i - 1], first);
      }
    }
  }

  /** In every run a side's quit channel is closed if and only if Close was called, a read failed or the
      receive loop left; it was then closed once, and every Send that was not taken, the goroutine that
      writes and the receive loop may leave. */
  lemma {:induction false} QuitExactlyWhenShut(ms: seq<Move>, first: bool)
    requires Runs(Pair(Init(), Init()), ms)
    ensures var p := After(Pair(Init(), Init()), ms);
            var s, incoming := SideOf(p, first), Sent(SideOf(p, !first).writes);
            && (s.quit <==> exists i :: 0 <= i < |ms| && Shuts(ms[i], first))
            && s.closes == Bit(s.quit)
            && (s.quit ==> forall i :: 0 <= i < |s.calls| && s.calls[i].Offering? ==>
                  Enabled(s, SeeQuit(i), incoming) && Next(s, SeeQuit(i), incoming).calls[i] == Refused(s.calls[i].msg))
            && (s.quit && s.sender.Idle? ==>
                  Enabled(s, SenderStops, incoming) && Next(s, SenderStops, incoming).sender.SenderGone?)
            && (s.quit && s.receiver.Passing? ==>
                  Enabled(s, ReceiverStops, incoming) && Next(s, ReceiverStops, incoming).receiver.ReceiverGone?)
  {
    QuitRun(Pair(Init(), Init()), ms, first);
    PairRun(Pair(Init(), Init()), ms);
  }
}
