/**
 Why each hypothesis of the plugin side's routing theorem is there: where an un-knocked dial goes
 while a door is open, what becomes of a knocked stream, and runs that end in a misrouted or closed
 stream, a wedged door or a stuck accept loop.
*/
module PluginDoor {
  import opened Basics
  import opened Broker
  import opened BrokerSafety
  import opened BrokerPair
  import opened PluginRouting
  import opened PluginWedge

  ghost predicate Reaches(s: System, t: System, announced: bool)
  {
    exists sts :: FairRun(s, sts, announced) && Final(s, sts, announced) == t
  }

  lemma {:induction false} FairAppend(s: System, sts: seq<Step>, st: Step, announced: bool)
    requires FairRun(s, sts, announced) && CanStep(Final(s, sts, announced), st)
    requires Fair(Final(s, sts, announced), st, announced)
    ensures FairRun(s, sts + [st], announced)
    ensures Final(s, sts + [st], announced) == Advance(Final(s, sts, announced), st)
    decreases sts
  {
    if sts == [] {
      assert [st][1..] == [] && sts + [st] == [st];
    } else {
      assert (sts + [st])[1..] == sts[1..] + [st];
      FairAppend(Advance(s, sts[0]), sts[1..], st, announced);
    }
  }

  lemma {:induction false} Extend(s: System, t: System, st: Step, announced: bool) returns (u: System)
    requires Reaches(s, t, announced) && CanStep(t, st) && Fair(t, st, announced)
    ensures u == Advance(t, st) && Reaches(s, u, announced)
  {
    u := Advance(t, st);
    var sts :| FairRun(s, sts, announced) && Final(s, sts, announced) == t;
    FairAppend(s, sts, st, announced);
  }

  /** The muxer is at rest; `id` has a listener if `announced`. */
  ghost predicate AtRest(s: System, id: Id, announced: bool)
  {
    && s.channels == (if announced then {id} else {}) && s.loop.Accepting?
    && s.queue == [] && s.failed == multiset{} && s.routed == []
  }

  /** The plugin listens for knocks on `id` with one entry, whose slot holds `ch`. */
  ghost predicate Listening(s: System, id: Id, ch: Option<ConnInfo>)
  {
    && s.plugin.mux && !s.plugin.panicked && s.plugin.run.Receiving? && s.plugin.log.sent == []
    && s.plugin.tables == Tables([Pending(id, true, ch, false)], map[], map[id := 0])
    && |s.plugin.listeners| == 1 && s.plugin.listeners[0].id == id
  }

  /** The host has knocked on `id` and waits for the ack. */
  ghost predicate Knocking(s: System, id: Id)
  {
    && s.host.mux && !s.host.panicked && s.host.run.Receiving? && s.host.dialer == Awaiting(id, 0)
    && s.host.tables == Tables([Pending(id, false, None, false)], map[id := 0], map[])
    && s.host.log.sent == [KnockMsg(id)] && s.host.log.received == []
  }

  /** Accept, with muxer.Listener first if `announced`; the source starts listenForKnocks before it. */
  lemma {:induction false} Listens(tr: Option<Translator>, id: Id, announced: bool) returns (t: System)
    ensures Reaches(Start(tr), t, announced) && AtRest(t, id, announced)
    ensures Listening(t, id, None) && t.plugin.listeners[0].at == Waiting(0)
    ensures t.knockCh.None? && t.host == Start(tr).host && t.plugin.log.received == []
  {
    var z := Start(tr);
    assert FairRun(z, [], announced) && Final(z, [], announced) == z;
    t := z;
    if announced {
      t := Extend(z, t, Register(id), announced);
    }
    t := Extend(z, t, PluginStep(OfListen(AcceptMux(id))), announced);
    t := Extend(z, t, PluginStep(OfListen(ListenStart(0))), announced);
  }

  lemma {:induction false} Knocks(tr: Option<Translator>, id: Id, announced: bool) returns (t: System)
    ensures Reaches(Start(tr), t, announced) && AtRest(t, id, announced)
    ensures Listening(t, id, None) && t.plugin.listeners[0].at == Waiting(0)
    ensures t.knockCh.None? && Knocking(t, id) && t.plugin.log.received == []
  {
    var z := Start(tr);
    t := Listens(tr, id, announced);
    t := Extend(z, t, HostStep(OfKnock(Lock(id))), announced);
    t := Extend(z, t, HostStep(OfKnock(SendKnock(true))), announced);
    t := Extend(z, t, HostStep(OfKnock(AwaitAck)), announced);
  }

  lemma {:induction false} KnockArrives(tr: Option<Translator>, id: Id, announced: bool) returns (t: System)
    ensures Reaches(Start(tr), t, announced) && AtRest(t, id, announced)
    ensures Listening(t, id, Some(KnockMsg(id))) && t.plugin.listeners[0].at == Waiting(0)
    ensures t.knockCh.None? && Knocking(t, id)
  {
    var z := Start(tr);
    t := Knocks(tr, id, announced);
    t := Extend(z, t, PluginStep(OfRun(Recv(KnockMsg(id)))), announced);
    t := Extend(z, t, PluginStep(OfRun(Route)), announced);
    t := Extend(z, t, PluginStep(OfRun(Queue)), announced);
  }

  /** The knock opens the door; the ack is not sent yet. */
  lemma {:induction false} DoorOpens(tr: Option<Translator>, id: Id, announced: bool) returns (t: System)
    ensures Reaches(Start(tr), t, announced) && AtRest(t, id, announced)
    ensures Listening(t, id, None) && t.plugin.listeners[0].at == Acking(0, "")
    ensures t.knockCh == Some(id) && Knocking(t, id)
  {
    var z := Start(tr);
    t := KnockArrives(tr, id, announced);
    t := Extend(z, t, PluginStep(OfListen(ListenTake(0))), announced);
    t := Extend(z, t, PluginStep(OfListen(OpenDoor(0, ""))), announced);
  }

  lemma {:induction false} Acks(tr: Option<Translator>, id: Id, announced: bool) returns (t: System)
    ensures Reaches(Start(tr), t, announced) && AtRest(t, id, announced) && t.knockCh == Some(id)
    ensures Knocking(t, id) && t.plugin.log.sent == [AckMsg(id, "")]
  {
    t := DoorOpens(tr, id, announced);
    t := Extend(Start(tr), t, PluginStep(OfListen(SendAck(0, true))), announced);
  }

  lemma {:induction false} AckArrives(tr: Option<Translator>, id: Id, announced: bool) returns (t: System)
    ensures Reaches(Start(tr), t, announced) && AtRest(t, id, announced) && t.knockCh == Some(id)
    ensures t.host.mux && !t.host.panicked && t.host.dialer == Awaiting(id, 0) && t.host.log.sent == [KnockMsg(id)]
    ensures t.host.tables == Tables([Pending(id, false, Some(AckMsg(id, "")), false)], map[id := 0], map[])
  {
    var z := Start(tr);
    t := Acks(tr, id, announced);
    t := Extend(z, t, HostStep(OfRun(Recv(AckMsg(id, "")))), announced);
    t := Extend(z, t, HostStep(OfRun(Route)), announced);
    t := Extend(z, t, HostStep(OfRun(Queue)), announced);
  }

  lemma {:induction false} IsAdmitted(tr: Option<Translator>, id: Id, announced: bool) returns (t: System)
    ensures Reaches(Start(tr), t, announced) && AtRest(t, id, announced) && t.knockCh == Some(id)
    ensures t.host.mux && !t.host.panicked && t.host.dialer == Admitted(id)
    ensures t.host.log.admitted[id] > 0 && t.host.log.sent == [KnockMsg(id)]
  {
    t := AckArrives(tr, id, announced);
    t := Extend(Start(tr), t, HostStep(OfKnock(TakeAck)), announced);
  }

  lemma {:induction false} ReachedDoor(tr: Option<Translator>, t: System)
    requires Reaches(Start(tr), t, true)
    ensures Invariant(t, true) && Friendly(t)
  {
    var sts :| FairRun(Start(tr), sts, true) && Final(Start(tr), sts, true) == t;
    InvariantStart(tr, true);
    InvariantRun(Start(tr), sts, true);
    FriendlyRun(Start(tr), sts, true);
  }

  /** For any id, a run with one dial that fails after its ack, and the door is wedged. */
  lemma {:induction false} OneFailedDialWedgesTheDoor(tr: Option<Translator>, id: Id) returns (t: System)
    ensures Reaches(Start(tr), t, true) && Wedged(t, id)
  {
    t := IsAdmitted(tr, id, true);
    t := Extend(Start(tr), t, HostStep(OfKnock(OpenStream(false))), true);
    ReachedDoor(tr, t);
    FailedDialWedges(t, id, true);
  }

  /** For any id, a run in which no dial fails and the ack is lost, and the door is wedged. */
  lemma {:induction false} OneLostAckWedgesTheDoor(tr: Option<Translator>, id: Id) returns (t: System)
    ensures Reaches(Start(tr), t, true) && t.failed == multiset{} && Wedged(t, id)
  {
    t := LosesAck(tr, id);
    ReachedDoor(tr, t);
    OpenDoors(t, id, true);
    assert t.host.tables.heap[0].ch.None?;
  }

  lemma {:induction false} LosesAck(tr: Option<Translator>, id: Id) returns (t: System)
    ensures Reaches(Start(tr), t, true) && AtRest(t, id, true) && t.knockCh == Some(id) && Knocking(t, id)
    ensures t.plugin.log.sent == [] && |t.plugin.listeners| == 1 && t.plugin.listeners[0].at.Exited?
  {
    t := DoorOpens(tr, id, true);
    t := Extend(Start(tr), t, PluginStep(OfListen(SendAck(0, false))), true);
  }

  // ---------------------------------------------------------------- un-knocked dials

  function LoopRank(l: LoopAt): nat
  {
    match l case Holding(_) => 2 case Delivering(_, _) => 1 case Accepting => 0
  }

  /** The accept loop alone, until it has routed all there is. */
  function Serve(s: System): System
    decreases |s.queue|, LoopRank(s.loop)
  {
    if s.loop.Delivering? then Serve(Advance(s, HandOff))
    else if s.loop.Holding? then Serve(Advance(s, Select))
    else if s.queue != [] then Serve(Advance(s, Pop))
    else s
  }

  /** Popping and handing off leave the line as it is; a select routes its head. */
  lemma Line(s: System)
    ensures CanStep(s, Pop) ==> Unrouted(Advance(s, Pop)) == Unrouted(s)
    ensures CanStep(s, HandOff) ==> Unrouted(Advance(s, HandOff)) == Unrouted(s)
    ensures CanStep(s, Select) ==> Unrouted(s) != [] && Unrouted(s)[0] == s.loop.stream
    ensures CanStep(s, Select) ==> Unrouted(Advance(s, Select)) == Unrouted(s)[1..]
    ensures CanStep(s, Select) ==> Advance(s, Select).knockCh.None?
    ensures CanStep(s, Select) ==>
              LastIs(Advance(s, Select), s.loop.stream, if s.knockCh.None? then Default else Behind(s))
  {
  }

  /** Where an open door leads. */
  function Behind(s: System): Dest
    requires s.knockCh.Some?
  {
    if s.knockCh.value in s.channels then To(s.knockCh.value) else Closed
  }

  ghost predicate LastIs(s: System, stream: Stream, dest: Dest)
  {
    s.routed != [] && s.routed[|s.routed| - 1].stream == stream && s.routed[|s.routed| - 1].dest == dest
  }

  /** With the door shut every un-knocked stream goes to the default listener. */
  lemma {:induction false} ServePlain(s: System)
    requires s.knockCh.None? && forall x :: x in Unrouted(s) ==> x == Plain
    requires Unrouted(s) == [] ==> LastIs(s, Plain, Default)
    ensures LastIs(Serve(s), Plain, Default)
    decreases |s.queue|, LoopRank(s.loop)
  {
    Line(s);
    if s.loop.Delivering? {
      ServePlain(Advance(s, HandOff));
    } else if s.loop.Holding? {
      assert Unrouted(s)[0] in Unrouted(s) && forall x :: x in Unrouted(s)[1..] ==> x in Unrouted(s);
      ServePlain(Advance(s, Select));
    } else if s.queue != [] {
      ServePlain(Advance(s, Pop));
    }
  }

  /** The head of the line takes the open door, and the un-knocked streams behind it do not. */
  lemma {:induction false} ServeDoor(s: System)
    requires s.knockCh.Some? && |Unrouted(s)| > 1 && forall x :: x in Unrouted(s)[1..] ==> x == Plain
    ensures LastIs(Serve(s), Plain, Default)
    decreases |s.queue|, LoopRank(s.loop)
  {
    Line(s);
    if s.loop.Delivering? {
      ServeDoor(Advance(s, HandOff));
    } else if s.loop.Holding? {
      ServePlain(Advance(s, Select));
    } else {
      ServeDoor(Advance(s, Pop));
    }
  }

  lemma {:induction false} ServeAlone(s: System)
    requires s.knockCh.Some? && Unrouted(s) == [Plain]
    ensures LastIs(Serve(s), Plain, Behind(s))
    decreases |s.queue|, LoopRank(s.loop)
  {
    Line(s);
    if s.loop.Delivering? {
      ServeAlone(Advance(s, HandOff));
    } else if s.loop.Holding? {
      Served(Advance(s, Select));
    } else {
      ServeAlone(Advance(s, Pop));
    }
  }

  lemma {:induction false} Served(s: System)
    requires Unrouted(s) == []
    ensures Serve(s).routed == s.routed
  {
    Line(s);
  }

  ghost predicate KnockedWaits(s: System)
  {
    exists i :: 0 <= i < |Unrouted(s)| && Unrouted(s)[i].Toward?
  }

  /** At every state of every fair run with a door open, one un-knocked dial is taken by that door, to
      its listener or to be closed, if and only if no knocked stream is unrouted. */
  lemma {:induction false} PlainDialTakesTheDoor(s: System, announced: bool)
    requires Invariant(s, announced) && s.knockCh.Some?
    ensures LastIs(Serve(Advance(s, PlainDial)), Plain, if KnockedWaits(s) then Default else Behind(s))
  {
    var u, s' := Unrouted(s), Advance(s, PlainDial);
    assert Unrouted(s') == u + [Plain] && (u != [] ==> u[0] in u);
    if KnockedWaits(s) {
      forall i | 1 <= i < |u| ensures u[i] == Plain { AtMostOneWaits(s, 0, i, announced); }
      ServeDoor(s');
    } else {
      ServeAlone(s');
    }
  }

  lemma {:induction false} KnockUnanswered(tr: Option<Translator>, s: System, id: Id)
    requires Reaches(Start(tr), s, true) && Listening(s, id, Some(KnockMsg(id))) && Knocking(s, id)
    ensures !Answered(s)
  {
    ReachedDoor(tr, s);
    assert Balanced(s.plugin, id);
    CountMember(s.plugin.tables.heap, 0, QueuedKnock(id));
    CountPrefix(s.plugin.log.received, s.host.log.sent, KnockFor(id));
  }

  /** An un-knocked dial while a knock is unanswered may be taken by the door that the knock then opens:
      for every id, a run in which it is. */
  lemma {:induction false} PlainDialBeforeTheDoorOpens(tr: Option<Translator>, id: Id) returns (s: System)
    ensures Reaches(Start(tr), s, true) && s.knockCh.None? && !Answered(s)
    ensures var s1 := Advance(s, PlainDial);
            CalmRun(s1, OpenSteps()) && CalmEnd(s1, OpenSteps()).routed == [Delivery(Plain, To(id), {id})]
  {
    s := KnockArrives(tr, id, true);
    KnockUnanswered(tr, s, id);
    StreamTakes(Advance(s, PlainDial), id);
  }

  /** A knock while an un-knocked stream is unrouted may open a door that the stream then takes: for every
      id, a run in which it does. */
  lemma {:induction false} KnockAfterPlainDial(tr: Option<Translator>, id: Id) returns (s: System)
    ensures Reaches(Start(tr), s, true) && s.host.dialer == Locked(id) && Plain in Unrouted(s)
    ensures !Fair(s, HostStep(OfKnock(SendKnock(true))), true)
    ensures var sts := KnockSteps(id); CalmRun(s, sts) && CalmEnd(s, sts).routed == [Delivery(Plain, To(id), {id})]
  {
    var z := Start(tr);
    s := Listens(tr, id, true);
    ReachedDoor(tr, s);
    NothingSent(s);
    s := Extend(z, s, PlainDial, true);
    s := Extend(z, s, HostStep(OfKnock(Lock(id))), true);
    assert Unrouted(s)[0] == Plain;
    KnockOpens(s, id);
  }

  /** Before any knock is sent every knock is answered. */
  lemma {:induction false} NothingSent(s: System)
    requires Invariant(s, true) && s.host.log.sent == []
    ensures Answered(s)
  {
    forall id: Id ensures CountIf(s.host.log.sent, KnockFor(id)) == s.plugin.log.doors[id] + s.plugin.log.knockDrops[id] {
      assert Balanced(s.plugin, id);
      CountPrefix(s.plugin.log.received, s.host.log.sent, KnockFor(id));
      assert CountIf(s.host.log.sent, KnockFor(id)) == 0;
    }
  }

  /** From a dialer with the lock to a routed stream. */
  function KnockSteps(id: Id): seq<Step>
  {
    [HostStep(OfKnock(SendKnock(true)))] + ([PluginStep(OfRun(Recv(KnockMsg(id))))] + ([PluginStep(OfRun(Route))] +
    ([PluginStep(OfRun(Queue))] + OpenSteps())))
  }

  function OpenSteps(): seq<Step>
  {
    [PluginStep(OfListen(ListenTake(0)))] + ([PluginStep(OfListen(OpenDoor(0, "")))] + ([Pop] + ([Select] + [])))
  }

  lemma {:induction false} StreamTakes(s: System, id: Id)
    requires Listening(s, id, Some(KnockMsg(id))) && s.plugin.listeners[0].at == Waiting(0) && s.knockCh.None?
    requires s.channels == {id} && s.loop.Accepting? && s.queue == [Plain] && s.routed == []
    ensures CalmRun(s, OpenSteps()) && CalmEnd(s, OpenSteps()).routed == [Delivery(Plain, To(id), {id})]
  {
    var s2 := Advance(s, PluginStep(OfListen(ListenTake(0))));
    var s3 := Advance(s2, PluginStep(OfListen(OpenDoor(0, ""))));
    var s4 := Advance(s3, Pop);
    CalmPrepend(s4, Select, []);
    CalmPrepend(s3, Pop, [Select] + []);
    CalmPrepend(s2, PluginStep(OfListen(OpenDoor(0, ""))), [Pop] + ([Select] + []));
    CalmPrepend(s, PluginStep(OfListen(ListenTake(0))), [PluginStep(OfListen(OpenDoor(0, "")))] + ([Pop] + ([Select] + [])));
  }

  lemma {:induction false} KnockOpens(s: System, id: Id)
    requires Listening(s, id, None) && s.plugin.listeners[0].at == Waiting(0) && s.knockCh.None? && s.plugin.log.received == []
    requires s.channels == {id} && s.loop.Accepting? && s.queue == [Plain] && s.routed == []
    requires s.host.mux && !s.host.panicked && s.host.dialer == Locked(id) && s.host.log.sent == []
    ensures CalmRun(s, KnockSteps(id)) && CalmEnd(s, KnockSteps(id)).routed == [Delivery(Plain, To(id), {id})]
  {
    var s1 := Advance(s, HostStep(OfKnock(SendKnock(true))));
    var s2 := Advance(s1, PluginStep(OfRun(Recv(KnockMsg(id)))));
    var s3 := Advance(s2, PluginStep(OfRun(Route)));
    var s4 := Advance(s3, PluginStep(OfRun(Queue)));
    StreamTakes(s4, id);
    CalmPrepend(s3, PluginStep(OfRun(Queue)), OpenSteps());
    CalmPrepend(s2, PluginStep(OfRun(Route)), [PluginStep(OfRun(Queue))] + OpenSteps());
    CalmPrepend(s1, PluginStep(OfRun(Recv(KnockMsg(id)))), [PluginStep(OfRun(Route))] + ([PluginStep(OfRun(Queue))] + OpenSteps()));
    CalmPrepend(s, HostStep(OfKnock(SendKnock(true))),
                [PluginStep(OfRun(Recv(KnockMsg(id))))] + ([PluginStep(OfRun(Route))] + ([PluginStep(OfRun(Queue))] + OpenSteps())));
  }

  // ---------------------------------------------------------------- knocks without a listener

  /** The first delivery that the accept loop adds. */
  ghost predicate NextIs(s: System, t: System, stream: Stream, dest: Dest)
  {
    |s.routed| < |t.routed| && t.routed[|s.routed|].stream == stream && t.routed[|s.routed|].dest == dest
  }

  lemma {:induction false} ServeGrows(s: System)
    ensures s.routed <= Serve(s).routed
    decreases |s.queue|, LoopRank(s.loop)
  {
    if s.loop.Delivering? {
      ServeGrows(Advance(s, HandOff));
    } else if s.loop.Holding? {
      ServeGrows(Advance(s, Select));
    } else if s.queue != [] {
      ServeGrows(Advance(s, Pop));
    }
  }

  lemma {:induction false} ServeNext(s: System)
    requires s.knockCh.Some? && Unrouted(s) != []
    ensures NextIs(s, Serve(s), Unrouted(s)[0], Behind(s))
    decreases |s.queue|, LoopRank(s.loop)
  {
    Line(s);
    if s.loop.Delivering? {
      ServeNext(Advance(s, HandOff));
    } else if s.loop.Holding? {
      ServeGrows(Advance(s, Select));
    } else {
      ServeNext(Advance(s, Pop));
    }
  }

  /** At every state of every fair run, an unrouted knocked stream is at the head of the line with the
      door open for its id, and the accept loop routes it next: to its listener if and only if there is
      one by then, and otherwise it closes it. */
  lemma {:induction false} KnockedStreamIsNext(s: System, id: Id, announced: bool)
    requires Invariant(s, announced) && Toward(id) in Unrouted(s)
    ensures Unrouted(s)[0] == Toward(id) && s.knockCh == Some(id)
    ensures NextIs(s, Serve(s), Toward(id), if id in s.channels then To(id) else Closed)
  {
    var u := Unrouted(s);
    var i :| 0 <= i < |u| && u[i] == Toward(id);
    CountMember(u, i, TowardId(id));
    OneWaitsAtTheDoor(s, id, announced);
    assert u[0] == Plain ==> u[0] in u;
    if i > 0 {
      AtMostOneWaits(s, 0, i, announced);
    }
    ServeNext(s);
  }

  /** Accept starts listening for knocks before it registers its listener (grpc_broker.go:307-315), and
      the muxer opens doors without looking.  For every id, a run in which a stream is closed although its
      knock was admitted, and the listener is registered right after. */
  lemma {:induction false} ListenerTooLate(tr: Option<Translator>, id: Id) returns (t: System)
    ensures Reaches(Start(tr), t, false) && t.routed == [Delivery(Toward(id), Closed, {})] && t.channels == {id}
  {
    var z := Start(tr);
    t := IsAdmitted(tr, id, false);
    t := Extend(z, t, HostStep(OfKnock(OpenStream(true))), false);
    t := Extend(z, t, Pop, false);
    t := Extend(z, t, Select, false);
    t := Extend(z, t, Register(id), false);
  }

  /** For every id, a run in which the stream that was dialled for `id` goes to its listener and is handed
      over, and an un-knocked one after it to the default listener. */
  lemma {:induction false} DialsAreRouted(tr: Option<Translator>, id: Id) returns (t: System)
    ensures Reaches(Start(tr), t, true) && t.loop.Accepting? && t.knockCh.None? && Unrouted(t) == []
    ensures t.routed == [Delivery(Toward(id), To(id), {id}), Delivery(Plain, Default, {id})]
  {
    var z := Start(tr);
    t := IsAdmitted(tr, id, true);
    t := Extend(z, t, HostStep(OfKnock(OpenStream(true))), true);
    t := Extend(z, t, Pop, true);
    t := Extend(z, t, Select, true);
    t := Extend(z, t, HandOff, true);
    AllAnswered(tr, t, id);
    t := Extend(z, t, PlainDial, true);
    t := Extend(z, t, Pop, true);
    t := Extend(z, t, Select, true);
  }

  lemma {:induction false} AllAnswered(tr: Option<Translator>, s: System, id: Id)
    requires Reaches(Start(tr), s, true) && s.host.log.admitted[id] > 0 && s.host.log.sent == [KnockMsg(id)]
    ensures Answered(s)
  {
    ReachedDoor(tr, s);
    forall k: Id ensures CountIf(s.host.log.sent, KnockFor(k)) == s.plugin.log.doors[k] + s.plugin.log.knockDrops[k] {
      assert Balanced(s.plugin, k) && Balanced(s.host, k);
      CountPrefix(s.plugin.log.received, s.host.log.sent, KnockFor(k));
      DoorsBetween(s.host, s.plugin, k);
      CountAppend([], KnockMsg(id), KnockFor(k));
      assert [] + [KnockMsg(id)] == s.host.log.sent && CountIf<ConnInfo>([], KnockFor(k)) == 0;
    }
  }

  // ---------------------------------------------------------------- a listener that does not accept

  /** A run in which nobody takes the stream that the accept loop is handing over. */
  predicate HungRun(s: System, sts: seq<Step>)
    decreases sts
  {
    sts == [] || (CanStep(s, sts[0]) && sts[0] != HandOff && HungRun(Advance(s, sts[0]), sts[1..]))
  }

  function HungEnd(s: System, sts: seq<Step>): System
    requires HungRun(s, sts)
    decreases sts
  {
    if sts == [] then s else HungEnd(Advance(s, sts[0]), sts[1..])
  }

  lemma {:induction false} HungPrepend(s: System, st: Step, sts: seq<Step>)
    requires CanStep(s, st) && st != HandOff && HungRun(Advance(s, st), sts)
    ensures HungRun(s, [st] + sts) && HungEnd(s, [st] + sts) == HungEnd(Advance(s, st), sts)
  {
    assert ([st] + sts)[1..] == sts;
  }

  lemma {:induction false} StuckStep(s: System, st: Step)
    requires s.loop.Delivering? && CanStep(s, st) && st != HandOff
    ensures Advance(s, st).loop == s.loop && Advance(s, st).routed == s.routed
  {
  }

  lemma {:induction false} StuckRun(s: System, sts: seq<Step>)
    requires s.loop.Delivering? && HungRun(s, sts)
    ensures HungEnd(s, sts).routed == s.routed
    decreases sts
  {
    if sts != [] {
      StuckStep(s, sts[0]);
      StuckRun(Advance(s, sts[0]), sts[1..]);
    }
  }

  /** The accept loop without its hand-over. */
  function RouteOne(s: System): seq<Step>
  {
    if s.loop.Holding? then [Select] + []
    else if s.queue != [] then [Pop] + ([Select] + [])
    else [PlainDial] + ([Pop] + ([Select] + []))
  }

  lemma {:induction false} RoutesOne(s: System)
    requires !s.loop.Delivering?
    ensures HungRun(s, RouteOne(s)) && HungEnd(s, RouteOne(s)).routed != s.routed
  {
    if s.loop.Holding? {
      HungPrepend(s, Select, []);
    } else if s.queue != [] {
      HungPrepend(Advance(s, Pop), Select, []);
      HungPrepend(s, Pop, [Select] + []);
    } else {
      var s1 := Advance(s, PlainDial);
      HungPrepend(Advance(s1, Pop), Select, []);
      HungPrepend(s1, Pop, [Select] + []);
      HungPrepend(s, PlainDial, [Pop] + ([Select] + []));
    }
  }

  /** At every state, if the listener that the loop has looked up never accepts, as after its Close, a
      stream of any id is routed in some run if and only if the loop is not handing one over. */
  lemma {:induction false} StuckExactlyWhenHandingOver(s: System)
    ensures (exists sts :: HungRun(s, sts) && HungEnd(s, sts).routed != s.routed) <==> !s.loop.Delivering?
  {
    if s.loop.Delivering? {
      forall sts | HungRun(s, sts) ensures HungEnd(s, sts).routed == s.routed { StuckRun(s, sts); }
    } else {
      RoutesOne(s);
    }
  }

  /** For every id, a run after which the loop is handing a stream over; if its listener is gone by then, no
      stream of any id is routed any more. */
  lemma {:induction false} OneListenerGoneStopsAll(tr: Option<Translator>, id: Id) returns (t: System)
    ensures Reaches(Start(tr), t, true) && t.loop == Delivering(id, Toward(id))
    ensures forall sts :: HungRun(t, sts) ==> HungEnd(t, sts).routed == t.routed
  {
    var z := Start(tr);
    t := IsAdmitted(tr, id, true);
    t := Extend(z, t, HostStep(OfKnock(OpenStream(true))), true);
    t := Extend(z, t, Pop, true);
    t := Extend(z, t, Select, true);
    forall sts | HungRun(t, sts) ensures HungEnd(t, sts).routed == t.routed { StuckRun(t, sts); }
  }
}
