/**
 The multiplexed broker with the plugin listening: host and plugin brokers, the yamux queue
 of streams the host opened, and GRPCServerMuxer (internal/grpcmux/grpc_server_muxer.go)
 with its one-slot knockCh, its accept loop and its table of listener channels.
*/
module PluginRouting {
  import opened Basics
  import opened Broker
  import opened BrokerSafety
  import opened BrokerPair

  /** A stream the host opened: after a successful knock for an id, or with no knock at all. */
  datatype Stream = Plain | Toward(id: Id)

  datatype Dest = Default | To(id: Id) | Closed

  /** What the accept loop did with a stream, and the ids that had a listener when it looked. */
  datatype Delivery = Delivery(stream: Stream, dest: Dest, listening: set<Id>)

  /** Where the loop of GRPCServerMuxer.Accept is. */
  datatype LoopAt =
    | Accepting
    | Holding(stream: Stream)
    | Delivering(id: Id, stream: Stream)

  /** `channels` are the keys of acceptChannels; `routed` and `failed` (dials that failed after
      their ack) are histories. */
  datatype System = System(
    host: State,
    plugin: State,
    queue: seq<Stream>,
    knockCh: Option<Id>,
    loop: LoopAt,
    channels: set<Id>,
    routed: seq<Delivery>,
    failed: multiset<Id>)

  function Start(tr: Option<Translator>): System
  {
    System(Init(true, tr), Init(true, None), [], None, Accepting, {}, [], multiset{})
  }

  datatype Step =
    | HostStep(e: Event)
    | PluginStep(e: Event)
    | PlainDial
    | Pop
    | Select
    | HandOff
    | Register(id: Id)

  /** AcceptKnock blocks while knockCh is full, and never fails. */
  predicate CanStep(s: System, st: Step)
  {
    match st
    case HostStep(e) => Enabled(s.host, e) && InOrder(s.host, s.plugin, e)
    case PluginStep(e) =>
      && Enabled(s.plugin, e) && InOrder(s.plugin, s.host, e)
      && (e.OfListen? && e.l.OpenDoor? ==> s.knockCh.None? && e.l.error == "")
    case PlainDial => true
    case Pop => s.loop.Accepting? && s.queue != []
    case Select => s.loop.Holding?
    case HandOff => s.loop.Delivering?
    case Register(_) => true
  }

  /** The select of the accept loop (grpc_server_muxer.go:133-153). */
  function SelectStep(s: System): System
    requires CanStep(s, Select)
  {
    var stream := s.loop.stream;
    match s.knockCh
    case Some(id) =>
      if id in s.channels then
        s.(knockCh := None, loop := Delivering(id, stream), routed := s.routed + [Delivery(stream, To(id), s.channels)])
      else
        s.(knockCh := None, loop := Accepting, routed := s.routed + [Delivery(stream, Closed, s.channels)])
    case None => s.(loop := Accepting, routed := s.routed + [Delivery(stream, Default, s.channels)])
  }

  function Advance(s: System, st: Step): System
    requires CanStep(s, st)
  {
    match st
    case HostStep(e) =>
      var s1 := s.(host := Next(s.host, e));
      if !(e.OfKnock? && e.k.OpenStream?) then s1
      else if e.k.ok then s1.(queue := s.queue + [Toward(s.host.dialer.id)])
      else s1.(failed := s.failed + One(true, s.host.dialer.id))
    case PluginStep(e) =>
      var s1 := s.(plugin := Next(s.plugin, e));
      if e.OfListen? && e.l.OpenDoor? then s1.(knockCh := Some(s.plugin.listeners[e.l.i].id)) else s1
    case PlainDial => s.(queue := s.queue + [Plain])
    case Pop => s.(loop := Holding(s.queue[0]), queue := s.queue[1..])
    case Select => SelectStep(s)
    case HandOff => s.(loop := Accepting)
    case Register(id) => s.(channels := s.channels + {id})
  }

  function Unrouted(s: System): seq<Stream>
  {
    (if s.loop.Holding? then [s.loop.stream] else []) + s.queue
  }

  function TowardId(id: Id): Stream -> bool
  {
    (x: Stream) => x == Toward(id)
  }

  /** Every knock the host has sent has opened its door or been dropped at a full slot. */
  ghost predicate Answered(s: System)
  {
    forall id: Id ::
      CountIf(s.host.log.sent, KnockFor(id)) == s.plugin.log.doors[id] + s.plugin.log.knockDrops[id]
  }

  /** An open door waits for the stream at the head of the line. */
  predicate DoorTaken(s: System)
  {
    s.knockCh.Some? ==> Unrouted(s) != [] && Unrouted(s)[0].Toward?
  }

  /** Un-knocked dials and knocks do not overlap: an un-knocked dial starts only while no knock
      is unanswered and an open door has its stream waiting, and no knock is sent while an un-knocked
      stream is unrouted.  With `announced`, a door is opened only for a registered listener. */
  ghost predicate Fair(s: System, st: Step, announced: bool)
  {
    match st
    case PlainDial => DoorTaken(s) && Answered(s)
    case HostStep(e) => e == OfKnock(SendKnock(true)) ==> Plain !in Unrouted(s)
    case PluginStep(e) =>
      announced && e.OfListen? && e.l.OpenDoor? && e.l.i < |s.plugin.listeners| ==>
        s.plugin.listeners[e.l.i].id in s.channels
    case _ => true
  }

  ghost predicate FairRun(s: System, sts: seq<Step>, announced: bool)
    decreases sts
  {
    sts == [] ||
    (CanStep(s, sts[0]) && Fair(s, sts[0], announced) && FairRun(Advance(s, sts[0]), sts[1..], announced))
  }

  function Final(s: System, sts: seq<Step>, announced: bool): System
    requires FairRun(s, sts, announced)
    decreases sts
  {
    if sts == [] then s else Final(Advance(s, sts[0]), sts[1..], announced)
  }

  // ---------------------------------------------------------------- the ordering invariant

  /** The one-slot door holds `id` exactly as often as a stream for `id` is opened but unrouted, an
      admitted dialer is about to open one, an admission for `id` is on its way, or a dial failed. */
  ghost predicate DoorBalance(s: System, id: Id)
  {
    Bit(s.knockCh == Some(id)) + s.host.log.admitted[id] ==
      Bit(s.loop == Holding(Toward(id))) + CountIf(s.queue, TowardId(id)) +
      Bit(s.host.dialer == Admitted(id)) + s.plugin.log.doors[id] + s.failed[id]
  }

  /** An un-knocked stream goes to the default listener, and a knocked one to the listener of its id, or
      is closed exactly if that id had no listener at that moment. */
  ghost predicate Right(d: Delivery)
  {
    match d.stream
    case Plain => d.dest == Default
    case Toward(id) => d.dest == if id in d.listening then To(id) else Closed
  }

  /** A door opened only for a registered listener never leads a stream to be closed. */
  ghost predicate Announced(d: Delivery)
  {
    d.stream.Toward? ==> d.stream.id in d.listening
  }

  ghost predicate Brokers(s: System)
  {
    Safe(s.host) && Safe(s.plugin) && s.host.mux && s.plugin.mux && Linked(s.host, s.plugin)
  }

  ghost predicate Invariant(s: System, announced: bool)
  {
    && Brokers(s)
    && (forall id: Id :: DoorBalance(s, id))
    && (Plain in Unrouted(s) ==> DoorTaken(s) && Answered(s))
    && (forall d :: d in s.routed ==> Right(d) && (announced ==> Announced(d)))
    && (announced && s.knockCh.Some? ==> s.knockCh.value in s.channels)
  }

  // ---------------------------------------------------------------- each step keeps it

  lemma {:induction false} BrokersHost(s: System, e: Event)
    requires Brokers(s) && CanStep(s, HostStep(e))
    ensures Brokers(Advance(s, HostStep(e)))
  {
    SafeStep(s.host, e);
    ModeStays(s.host, e);
    LinkedStep(s.host, s.plugin, e);
  }

  lemma {:induction false} BrokersPlugin(s: System, e: Event)
    requires Brokers(s) && CanStep(s, PluginStep(e))
    ensures Brokers(Advance(s, PluginStep(e)))
  {
    SafeStep(s.plugin, e);
    ModeStays(s.plugin, e);
    LinkedStep(s.plugin, s.host, e);
  }

  lemma {:induction false} BrokersStep(s: System, st: Step)
    requires Brokers(s) && CanStep(s, st)
    ensures Brokers(Advance(s, st))
  {
    match st
    case HostStep(e) => BrokersHost(s, e);
    case PluginStep(e) => BrokersPlugin(s, e);
    case _ =>
  }

  lemma {:induction false} HostBalance(s: System, e: Event, id: Id)
    requires DoorBalance(s, id) && CanStep(s, HostStep(e))
    ensures DoorBalance(Advance(s, HostStep(e)), id)
  {
    Frame(s.host, e, id);
    if e.OfKnock? && e.k.OpenStream? {
      CountAppend(s.queue, Toward(s.host.dialer.id), TowardId(id));
    }
  }

  lemma {:induction false} PluginBalance(s: System, e: Event, id: Id)
    requires DoorBalance(s, id) && CanStep(s, PluginStep(e))
    ensures DoorBalance(Advance(s, PluginStep(e)), id)
  {
    Frame(s.plugin, e, id);
  }

  /** The stream the loop holds is the one the door was opened for. */
  lemma {:induction false} DoorMatches(s: System, announced: bool)
    requires Invariant(s, announced) && s.loop.Holding?
    ensures match s.loop.stream
            case Plain => s.knockCh.None?
            case Toward(id) => s.knockCh == Some(id)
  {
    match s.loop.stream
    case Plain => assert Unrouted(s)[0] == Plain;
    case Toward(id) =>
      assert DoorBalance(s, id) && Balanced(s.host, id) && Balanced(s.plugin, id);
      DoorsBetween(s.host, s.plugin, id);
  }

  lemma {:induction false} MuxBalance(s: System, st: Step, announced: bool, id: Id)
    requires Invariant(s, announced) && CanStep(s, st) && !st.HostStep? && !st.PluginStep?
    ensures DoorBalance(Advance(s, st), id)
  {
    assert DoorBalance(s, id);
    match st
    case PlainDial => CountAppend(s.queue, Plain, TowardId(id));
    case Pop =>
      assert s.queue == [s.queue[0]] + s.queue[1..];
      CountPrepend(s.queue[0], s.queue[1..], TowardId(id));
    case Select => DoorMatches(s, announced);
    case _ =>
  }

  /** When every knock has been answered, no listener is about to open a door. */
  lemma {:induction false} NoneOpening(s: System, i: nat)
    requires Brokers(s) && Answered(s) && i < |s.plugin.listeners|
    ensures !s.plugin.listeners[i].at.Opening?
  {
    var id := s.plugin.listeners[i].id;
    assert Balanced(s.plugin, id);
    CountPrefix(s.plugin.log.received, s.host.log.sent, KnockFor(id));
    if s.plugin.listeners[i].at.Opening? {
      CountMember(s.plugin.listeners, i, OpeningFor(id));
    }
  }

  lemma {:induction false} AnsweredStays(s: System, e: Event, id: Id)
    requires Brokers(s) && Answered(s) && CanStep(s, PluginStep(e))
    ensures var s' := Advance(s, PluginStep(e));
            CountIf(s'.host.log.sent, KnockFor(id)) == s'.plugin.log.doors[id] + s'.plugin.log.knockDrops[id]
  {
    var s' := Advance(s, PluginStep(e));
    BrokersStep(s, PluginStep(e));
    assert Balanced(s'.plugin, id);
    CountPrefix(s'.plugin.log.received, s'.host.log.sent, KnockFor(id));
    LogGrows(s.plugin, e, id);
  }

  lemma {:induction false} PlainWaitsHost(s: System, e: Event)
    requires Answered(s) && DoorTaken(s) && CanStep(s, HostStep(e)) && e != OfKnock(SendKnock(true))
    ensures DoorTaken(Advance(s, HostStep(e))) && Answered(Advance(s, HostStep(e)))
  {
    var s' := Advance(s, HostStep(e));
    assert Unrouted(s) <= Unrouted(s');
    forall id: Id ensures CountIf(s'.host.log.sent, KnockFor(id)) == s'.plugin.log.doors[id] + s'.plugin.log.knockDrops[id] {
      KnocksStay(s.host, e, id);
    }
  }

  lemma {:induction false} PlainWaitsPlugin(s: System, e: Event)
    requires Brokers(s) && Answered(s) && DoorTaken(s) && CanStep(s, PluginStep(e))
    ensures DoorTaken(Advance(s, PluginStep(e))) && Answered(Advance(s, PluginStep(e)))
  {
    var s' := Advance(s, PluginStep(e));
    if e.OfListen? && e.l.OpenDoor? {
      NoneOpening(s, e.l.i);
    }
    forall id: Id ensures CountIf(s'.host.log.sent, KnockFor(id)) == s'.plugin.log.doors[id] + s'.plugin.log.knockDrops[id] {
      AnsweredStays(s, e, id);
    }
  }

  /** While an un-knocked stream waits, no door can open. */
  lemma {:induction false} PlainWaits(s: System, st: Step, announced: bool)
    requires Invariant(s, announced) && CanStep(s, st) && Fair(s, st, announced)
    requires Plain in Unrouted(Advance(s, st))
    ensures DoorTaken(Advance(s, st)) && Answered(Advance(s, st))
  {
    match st
    case HostStep(e) =>
      assert Plain in Unrouted(s);
      PlainWaitsHost(s, e);
    case PluginStep(e) => PlainWaitsPlugin(s, e);
    case PlainDial =>
    case _ => assert Plain in Unrouted(s);
  }

  lemma {:induction false} BalanceStep(s: System, st: Step, announced: bool, id: Id)
    requires Invariant(s, announced) && CanStep(s, st)
    ensures DoorBalance(Advance(s, st), id)
  {
    assert DoorBalance(s, id);
    match st
    case HostStep(e) => HostBalance(s, e, id);
    case PluginStep(e) => PluginBalance(s, e, id);
    case _ => MuxBalance(s, st, announced, id);
  }

  lemma {:induction false} RoutedStep(s: System, st: Step, announced: bool)
    requires Invariant(s, announced) && CanStep(s, st) && Fair(s, st, announced)
    ensures forall d :: d in Advance(s, st).routed ==> Right(d) && (announced ==> Announced(d))
    ensures announced && Advance(s, st).knockCh.Some? ==> Advance(s, st).knockCh.value in Advance(s, st).channels
  {
    if st == Select {
      DoorMatches(s, announced);
    }
  }

  lemma {:induction false} InvariantStep(s: System, st: Step, announced: bool)
    requires Invariant(s, announced) && CanStep(s, st) && Fair(s, st, announced)
    ensures Invariant(Advance(s, st), announced)
  {
    BrokersStep(s, st);
    forall id: Id ensures DoorBalance(Advance(s, st), id) {
      BalanceStep(s, st, announced, id);
    }
    if Plain in Unrouted(Advance(s, st)) {
      PlainWaits(s, st, announced);
    }
    RoutedStep(s, st, announced);
  }

  lemma {:induction false} InvariantRun(s: System, sts: seq<Step>, announced: bool)
    requires Invariant(s, announced) && FairRun(s, sts, announced)
    ensures Invariant(Final(s, sts, announced), announced)
    decreases sts
  {
    if sts != [] {
      InvariantStep(s, sts[0], announced);
      InvariantRun(Advance(s, sts[0]), sts[1..], announced);
    }
  }

  lemma InvariantStart(tr: Option<Translator>, announced: bool)
    ensures Invariant(Start(tr), announced)
  {
    SafeInit(true, tr);
    SafeInit(true, None);
  }

  /** In every interleaving of both processes that keeps un-knocked dials apart from knocks, and
      through any number of timeouts, lost knocks and failed dials: each stream opened after a
      successful knock goes to the listener of its id, and is closed exactly if the accept loop found none;
      if doors are opened only for registered listeners it always finds one.  At most one such stream
      is ever waiting to be routed. */
  lemma {:induction false} KnockedStreamsReachTheirListener(tr: Option<Translator>, sts: seq<Step>, announced: bool)
    requires FairRun(Start(tr), sts, announced)
    ensures var s := Final(Start(tr), sts, announced);
            && (forall d :: d in s.routed ==> Right(d) && (announced ==> Announced(d)))
            && (forall i, j :: 0 <= i < j < |Unrouted(s)| ==> !(Unrouted(s)[i].Toward? && Unrouted(s)[j].Toward?))
  {
    InvariantStart(tr, announced);
    InvariantRun(Start(tr), sts, announced);
    var s := Final(Start(tr), sts, announced);
    var u := Unrouted(s);
    forall i, j | 0 <= i < j < |u| ensures !(u[i].Toward? && u[j].Toward?) {
      AtMostOneWaits(s, i, j, announced);
    }
  }

  lemma {:induction false} UnroutedCount(s: System, id: Id)
    ensures CountIf(Unrouted(s), TowardId(id)) == Bit(s.loop == Holding(Toward(id))) + CountIf(s.queue, TowardId(id))
  {
    if s.loop.Holding? {
      CountPrepend(s.loop.stream, s.queue, TowardId(id));
    } else {
      assert Unrouted(s) == s.queue;
    }
  }

  lemma {:induction false} OneWaitsAtTheDoor(s: System, id: Id, announced: bool)
    requires Invariant(s, announced)
    ensures CountIf(Unrouted(s), TowardId(id)) <= Bit(s.knockCh == Some(id))
  {
    assert DoorBalance(s, id) && Balanced(s.host, id) && Balanced(s.plugin, id);
    DoorsBetween(s.host, s.plugin, id);
    UnroutedCount(s, id);
  }

  lemma {:induction false} AtMostOneWaits(s: System, i: nat, j: nat, announced: bool)
    requires Invariant(s, announced) && i < j < |Unrouted(s)|
    ensures !(Unrouted(s)[i].Toward? && Unrouted(s)[j].Toward?)
  {
    var u := Unrouted(s);
    if u[i].Toward? && u[j].Toward? {
      CountMember(u, i, TowardId(u[i].id));
      if u[i].id == u[j].id {
        CountPair(u, i, j, TowardId(u[i].id));
      } else {
        CountMember(u, j, TowardId(u[j].id));
      }
      OneWaitsAtTheDoor(s, u[i].id, announced);
      OneWaitsAtTheDoor(s, u[j].id, announced);
    }
  }
}
