/**
 The plugin side's door, once it is open and nothing is on its way through it: exactly when a
 dialer can still be admitted, and that otherwise nobody is until somebody dials without knocking.
*/
module PluginWedge {
  import opened Basics
  import opened Broker
  import opened BrokerSafety
  import opened BrokerPair
  import opened PluginRouting

  // ---------------------------------------------------------------- runs without un-knocked dials

  predicate CalmRun(s: System, sts: seq<Step>)
    decreases sts
  {
    sts == [] || (CanStep(s, sts[0]) && sts[0] != PlainDial && CalmRun(Advance(s, sts[0]), sts[1..]))
  }

  function CalmEnd(s: System, sts: seq<Step>): System
    requires CalmRun(s, sts)
    decreases sts
  {
    if sts == [] then s else CalmEnd(Advance(s, sts[0]), sts[1..])
  }

  lemma {:induction false} CalmPrepend(s: System, st: Step, sts: seq<Step>)
    requires CanStep(s, st) && st != PlainDial && CalmRun(Advance(s, st), sts)
    ensures CalmRun(s, [st] + sts) && CalmEnd(s, [st] + sts) == CalmEnd(Advance(s, st), sts)
  {
    assert ([st] + sts)[1..] == sts;
  }

  /** Some run admits a dialer for `id`. */
  ghost predicate Admits(s: System, id: Id)
  {
    exists sts :: CalmRun(s, sts) && CalmEnd(s, sts).host.log.admitted[id] > s.host.log.admitted[id]
  }

  lemma {:induction false} AdmitsNow(s: System, st: Step, id: Id)
    requires CanStep(s, st) && st != PlainDial && Advance(s, st).host.log.admitted[id] > s.host.log.admitted[id]
    ensures Admits(s, id)
  {
    CalmPrepend(s, st, []);
  }

  lemma {:induction false} AdmitsNext(s: System, st: Step, id: Id)
    requires CanStep(s, st) && st != PlainDial && Admits(Advance(s, st), id)
    requires Advance(s, st).host.log.admitted[id] >= s.host.log.admitted[id]
    ensures Admits(s, id)
  {
    var s' := Advance(s, st);
    var sts :| CalmRun(s', sts) && CalmEnd(s', sts).host.log.admitted[id] > s'.host.log.admitted[id];
    CalmPrepend(s, st, sts);
  }

  // ---------------------------------------------------------------- what the plugin sends

  predicate KnockOrAdmission(m: ConnInfo)
  {
    IsKnock(m) || IsAdmission(m)
  }

  /** Every message the dialing side has in hand or in a slot is a knock or an admission. */
  ghost predicate HearsOnly(h: State)
  {
    && !h.panicked
    && (h.run.Routing? || h.run.Queueing? ==> KnockOrAdmission(h.run.msg))
    && (forall p :: 0 <= p < |h.tables.heap| && h.tables.heap[p].ch.Some? ==> KnockOrAdmission(h.tables.heap[p].ch.value))
  }

  /** The listening side sends nothing else: its muxer never refuses a knock. */
  ghost predicate SaysOnly(s: State)
  {
    && !s.panicked
    && (forall m :: m in s.log.sent ==> KnockOrAdmission(m))
    && (forall i :: 0 <= i < |s.listeners| && s.listeners[i].at.Acking? ==> s.listeners[i].at.error == "")
  }

  ghost predicate Friendly(s: System)
  {
    HearsOnly(s.host) && SaysOnly(s.plugin)
  }

  lemma {:induction false} HearsStep(h: State, e: Event)
    requires HearsOnly(h) && h.mux && Enabled(h, e) && (e.OfRun? && e.r.Recv? ==> KnockOrAdmission(e.r.msg))
    ensures HearsOnly(Next(h, e))
  {
    match e
    case OfRun(r) => HearsRun(h, r);
    case OfKnock(k) => HearsKnock(h, k);
    case OfListen(l) => HearsListen(h, l);
    case OfDial(_) =>
  }

  lemma {:induction false} HearsRun(h: State, e: RunEvent)
    requires HearsOnly(h) && RunEnabled(h, e) && (e.Recv? ==> KnockOrAdmission(e.msg))
    ensures HearsOnly(RunNext(h, e))
  {
  }

  lemma {:induction false} HearsKnock(h: State, e: KnockEvent)
    requires HearsOnly(h) && KnockEnabled(h, e)
    ensures HearsOnly(KnockNext(h, e))
  {
  }

  lemma {:induction false} HearsListen(h: State, e: ListenEvent)
    requires HearsOnly(h) && ListenEnabled(h, e)
    ensures HearsOnly(ListenNext(h, e))
  {
  }

  lemma {:induction false} SaysListen(s: State, e: ListenEvent)
    requires SaysOnly(s) && ListenEnabled(s, e) && (e.OpenDoor? ==> e.error == "")
    ensures SaysOnly(ListenNext(s, e))
  {
  }

  lemma {:induction false} SaysStep(s: State, e: Event)
    requires SaysOnly(s) && s.mux && Enabled(s, e) && (e.OfListen? && e.l.OpenDoor? ==> e.l.error == "")
    ensures SaysOnly(Next(s, e))
  {
    if e.OfListen? {
      SaysListen(s, e.l);
    }
  }

  lemma {:induction false} FriendlyStep(s: System, st: Step)
    requires Friendly(s) && Brokers(s) && CanStep(s, st)
    ensures Friendly(Advance(s, st))
  {
    match st
    case HostStep(e) => HearsStep(s.host, e);
    case PluginStep(e) => SaysStep(s.plugin, e);
    case _ =>
  }

  // ---------------------------------------------------------------- the door

  /** The door is open for `id`, nothing is on its way through it, and at most one admission is
      unaccounted for. */
  ghost predicate Open(s: System, id: Id)
  {
    && Brokers(s) && Friendly(s)
    && s.knockCh == Some(id) && s.queue == [] && !s.loop.Holding? && !s.host.dialer.Admitted?
    && (forall k: Id :: s.plugin.log.doors[k] <= s.host.log.admitted[k] + Bit(k == id))
  }

  /** A dialer for `id` can still come to read entry `p`: it waits on it, or the table names it and no
      dialer for `id` waits on another entry, whose timeout would delete the id. */
  predicate Takeable(h: State, id: Id, p: Ref)
  {
    || h.dialer == Awaiting(id, p)
    || (!(h.dialer.Awaiting? && h.dialer.id == id) && id in h.tables.clientStreams && h.tables.clientStreams[id] == p)
  }

  predicate Delivered(h: State, id: Id, p: Ref)
  {
    p < |h.tables.heap| && QueuedAdmission(id)(h.tables.heap[p]) && Takeable(h, id, p)
  }

  predicate OnWire(s: System, id: Id)
  {
    CountIf(s.plugin.log.sent, AdmissionFor(id)) > CountIf(s.host.log.received, AdmissionFor(id))
  }

  /** An admission for `id` that can still reach a dialer: with a listener about to send it or on the
      wire while Run is running, in Run's hand, or in a slot that a dialer can come to read. */
  ghost predicate Live(s: System, id: Id)
  {
    || (!s.host.run.Stopped? && (CountIf(s.plugin.listeners, AckingFor(id)) > 0 || OnWire(s, id)))
    || (s.host.run.Routing? && AdmissionFor(id)(s.host.run.msg))
    || (s.host.run.Queueing? && AdmissionFor(id)(s.host.run.msg) && Takeable(s.host, id, s.host.run.p))
    || (exists p :: Delivered(s.host, id, p))
  }

  lemma {:induction false} InFlight(s: System, id: Id, k: Id)
    requires Open(s, id)
    ensures CountIf(s.plugin.listeners, AckingFor(k)) + CountIf(s.plugin.log.sent, AdmissionFor(k)) +
            Bit(Holds(s.host.run, AdmissionFor(k))) + CountIf(s.host.tables.heap, QueuedAdmission(k))
         <= CountIf(s.host.log.received, AdmissionFor(k)) + Bit(k == id)
    ensures CountIf(s.host.log.received, AdmissionFor(k)) <= CountIf(s.plugin.log.sent, AdmissionFor(k))
  {
    assert Balanced(s.host, k) && Balanced(s.plugin, k);
    CountPrefix(s.host.log.received, s.plugin.log.sent, AdmissionFor(k));
  }

  /** A filled slot of a dialer's entry holds the one admission there is. */
  lemma {:induction false} FilledSlot(s: System, id: Id, p: Ref)
    requires Open(s, id) && Filled(s.host.tables, p) && !s.host.tables.heap[p].knocks
    ensures QueuedAdmission(id)(s.host.tables.heap[p])
    ensures CountIf(s.host.tables.heap, QueuedAdmission(id)) == 1 && !Holds(s.host.run, AdmissionFor(id))
    ensures !OnWire(s, id) && CountIf(s.plugin.listeners, AckingFor(id)) == 0
  {
    var k := s.host.tables.heap[p].id;
    assert SlotOk(s.host.tables.heap[p]);
    assert QueuedAdmission(k)(s.host.tables.heap[p]);
    CountMember(s.host.tables.heap, p, QueuedAdmission(k));
    InFlight(s, id, k);
    InFlight(s, id, id);
  }

  // ---------------------------------------------------------------- a dead door stays dead

  lemma {:induction false} NothingToTake(s: System, id: Id)
    requires Open(s, id) && !Live(s, id)
    ensures !KnockEnabled(s.host, TakeAck)
  {
    if KnockEnabled(s.host, TakeAck) {
      FilledSlot(s, id, s.host.dialer.p);
      assert Delivered(s.host, id, s.host.dialer.p);
    }
  }

  lemma {:induction false} TakeableKnock(h: State, e: KnockEvent, id: Id, p: Ref)
    requires KnockEnabled(h, e) && e != TakeAck && p < |h.tables.heap|
    ensures Takeable(KnockNext(h, e), id, p) ==> Takeable(h, id, p)
  {
  }

  lemma {:induction false} TakeableRun(h: State, e: RunEvent, id: Id, p: Ref)
    requires RunEnabled(h, e) && p < |h.tables.heap|
    ensures Takeable(RunNext(h, e), id, p) ==> Takeable(h, id, p)
  {
    match e
    case Recv(_) => case RecvFails => case Route => case Queue => case Spawn => case Reap(_, _) =>
  }

  lemma {:induction false} TakeableListen(h: State, e: ListenEvent, id: Id, p: Ref)
    requires ListenEnabled(h, e) && p < |h.tables.heap|
    ensures Takeable(ListenNext(h, e), id, p) ==> Takeable(h, id, p)
  {
  }

  lemma {:induction false} TakeableBack(h: State, e: Event, id: Id, p: Ref)
    requires Enabled(h, e) && h.mux && e != OfKnock(TakeAck) && p < |h.tables.heap|
    ensures Takeable(Next(h, e), id, p) ==> Takeable(h, id, p)
  {
    match e
    case OfRun(r) => TakeableRun(h, r, id, p);
    case OfKnock(k) => TakeableKnock(h, k, id, p);
    case OfListen(l) => TakeableListen(h, l, id, p);
    case OfDial(_) =>
  }

  predicate Arriving(h: State, id: Id, p: Ref)
  {
    h.run.Queueing? && h.run.p == p && AdmissionFor(id)(h.run.msg) && Takeable(h, id, p)
  }

  lemma {:induction false} DeliveredBack(h: State, e: Event, id: Id, p: Ref)
    requires Enabled(h, e) && h.mux && e != OfKnock(TakeAck) && RunOk(h.tables.heap, h.run)
    ensures Delivered(Next(h, e), id, p) ==> Delivered(h, id, p) || Arriving(h, id, p)
  {
    if p < |h.tables.heap| {
      TakeableBack(h, e, id, p);
    }
  }

  lemma {:induction false} ArrivingBack(h: State, e: Event, id: Id, p: Ref)
    requires Enabled(h, e) && h.mux && e != OfKnock(TakeAck) && RunOk(h.tables.heap, h.run)
    ensures Arriving(Next(h, e), id, p) ==> Arriving(h, id, p) || (h.run.Routing? && AdmissionFor(id)(h.run.msg))
  {
    if h.run.Queueing? && p == h.run.p {
      TakeableBack(h, e, id, p);
    }
  }

  lemma {:induction false} ReadFromWire(s: System, m: ConnInfo, id: Id)
    requires Linked(s.host, s.plugin) && CanStep(s, HostStep(OfRun(Recv(m))))
    ensures OnWire(Advance(s, HostStep(OfRun(Recv(m)))), id) || AdmissionFor(id)(m) ==> OnWire(s, id)
  {
    CountAppend(s.host.log.received, m, AdmissionFor(id));
    assert s.host.log.received + [m] <= s.plugin.log.sent;
    CountPrefix(s.host.log.received + [m], s.plugin.log.sent, AdmissionFor(id));
  }

  lemma {:induction false} ReceivedFromWire(s: System, e: Event, id: Id)
    requires Linked(s.host, s.plugin) && CanStep(s, HostStep(e))
    ensures OnWire(Advance(s, HostStep(e)), id) ==> OnWire(s, id)
    ensures e.OfRun? && e.r.Recv? && AdmissionFor(id)(e.r.msg) ==> OnWire(s, id)
  {
    if e.OfRun? && e.r.Recv? {
      ReadFromWire(s, e.r.msg, id);
    } else {
      Traffic(s.host, e);
    }
  }

  lemma {:induction false} DeadHost(s: System, e: Event, id: Id)
    requires Open(s, id) && !Live(s, id) && CanStep(s, HostStep(e))
    ensures !Live(Advance(s, HostStep(e)), id)
  {
    var s' := Advance(s, HostStep(e));
    NothingToTake(s, id);
    ReceivedFromWire(s, e, id);
    if s'.host.run.Queueing? {
      ArrivingBack(s.host, e, id, s'.host.run.p);
    }
    forall p ensures !Delivered(s'.host, id, p) {
      DeliveredBack(s.host, e, id, p);
    }
    RunStarts(s.host, e);
  }

  /** A stopped Run stays stopped, and Run holds a message only once it has received it. */
  lemma {:induction false} RunStarts(h: State, e: Event)
    requires Enabled(h, e)
    ensures h.run.Stopped? ==> Next(h, e).run.Stopped?
    ensures Next(h, e).run.Routing? ==> Next(h, e).run == h.run || (h.run.Receiving? && e == OfRun(Recv(Next(h, e).run.msg)))
  {
  }

  lemma {:induction false} DeadPlugin(s: System, e: Event, id: Id)
    requires Open(s, id) && !Live(s, id) && CanStep(s, PluginStep(e))
    ensures !Live(Advance(s, PluginStep(e)), id)
  {
    var s' := Advance(s, PluginStep(e));
    assert s'.host == s.host;
    AcksStay(s.plugin, e, id);
    forall p ensures !Delivered(s'.host, id, p) {
      assert !Delivered(s.host, id, p);
    }
  }

  /** Only OpenDoor readies an ack, and it is sent only by the listener that has it ready. */
  lemma {:induction false} AcksStay(s: State, e: Event, id: Id)
    requires Enabled(s, e) && s.mux && !(e.OfListen? && e.l.OpenDoor?)
    ensures CountIf(Next(s, e).listeners, AckingFor(id)) + CountIf(Next(s, e).log.sent, AdmissionFor(id))
         <= CountIf(s.listeners, AckingFor(id)) + CountIf(s.log.sent, AdmissionFor(id))
    ensures CountIf(s.log.sent, AdmissionFor(id)) <= CountIf(Next(s, e).log.sent, AdmissionFor(id))
  {
    match e
    case OfListen(l) => AcksListen(s, l, id);
    case OfKnock(k) =>
      if k == SendKnock(true) {
        CountAppend(s.log.sent, KnockMsg(s.dialer.id), AdmissionFor(id));
      }
    case _ =>
  }

  lemma {:induction false} AcksListen(s: State, e: ListenEvent, id: Id)
    requires ListenEnabled(s, e) && !e.OpenDoor?
    ensures CountIf(ListenNext(s, e).listeners, AckingFor(id)) + CountIf(ListenNext(s, e).log.sent, AdmissionFor(id))
         <= CountIf(s.listeners, AckingFor(id)) + CountIf(s.log.sent, AdmissionFor(id))
    ensures CountIf(s.log.sent, AdmissionFor(id)) <= CountIf(ListenNext(s, e).log.sent, AdmissionFor(id))
  {
    match e
    case AcceptMux(key) => CountAppend(s.listeners, Listener(key, GetServer(s.tables, key).1, Starting), AckingFor(id));
    case SendAck(i, ok) =>
      var l := s.listeners[i];
      CountUpdate(s.listeners, i, ListenNext(s, e).listeners[i], AckingFor(id));
      if ok {
        CountAppend(s.log.sent, AckMsg(l.id, l.at.error), AdmissionFor(id));
      }
    case ListenStart(i) => CountUpdate(s.listeners, i, ListenNext(s, e).listeners[i], AckingFor(id));
    case ListenTake(i) => CountUpdate(s.listeners, i, ListenNext(s, e).listeners[i], AckingFor(id));
    case ListenDone(i) => CountUpdate(s.listeners, i, ListenNext(s, e).listeners[i], AckingFor(id));
    case _ =>
  }

  lemma {:induction false} OpenHost(s: System, e: Event, id: Id)
    requires Open(s, id) && CanStep(s, HostStep(e)) && e != OfKnock(TakeAck)
    ensures var s' := Advance(s, HostStep(e));
            && !s'.host.dialer.Admitted? && s'.host.log.admitted == s.host.log.admitted
            && s' == s.(host := s'.host)
  {
    forall k: Id ensures Next(s.host, e).dialer != Admitted(k) { Frame(s.host, e, k); }
  }

  lemma {:induction false} OpenPlugin(s: System, e: Event, id: Id)
    requires Open(s, id) && CanStep(s, PluginStep(e))
    ensures var s' := Advance(s, PluginStep(e));
            s'.plugin.log.doors == s.plugin.log.doors && s' == s.(plugin := s'.plugin)
  {
    Frame(s.plugin, e, id);
  }

  /** The door stays as it is until a dialer is admitted. */
  lemma {:induction false} OpenStep(s: System, st: Step, id: Id)
    requires Open(s, id) && CanStep(s, st) && st != PlainDial && st != HostStep(OfKnock(TakeAck))
    ensures Open(Advance(s, st), id)
    ensures Advance(s, st).host.log.admitted == s.host.log.admitted && Advance(s, st).routed == s.routed
  {
    BrokersStep(s, st);
    FriendlyStep(s, st);
    if st.HostStep? {
      OpenHost(s, st.e, id);
    } else if st.PluginStep? {
      OpenPlugin(s, st.e, id);
    }
  }

  /** The door is open for a dial that can no longer come. */
  ghost predicate Wedged(s: System, id: Id)
  {
    Open(s, id) && !Live(s, id)
  }

  lemma {:induction false} WedgedStep(s: System, st: Step, id: Id)
    requires Wedged(s, id) && CanStep(s, st) && st != PlainDial
    ensures Wedged(Advance(s, st), id)
    ensures Advance(s, st).host.log.admitted == s.host.log.admitted && Advance(s, st).routed == s.routed
  {
    NothingToTake(s, id);
    OpenStep(s, st, id);
    if st.HostStep? {
      DeadHost(s, st.e, id);
    } else if st.PluginStep? {
      DeadPlugin(s, st.e, id);
    } else {
      assert Advance(s, st).host == s.host && Advance(s, st).plugin == s.plugin;
    }
  }

  /** From a wedged door, in every run without un-knocked dials, no dial of any id is admitted and no
      stream is routed. */
  lemma {:induction false} WedgedForever(s: System, sts: seq<Step>, id: Id)
    requires Wedged(s, id) && CalmRun(s, sts)
    ensures Wedged(CalmEnd(s, sts), id)
    ensures CalmEnd(s, sts).routed == s.routed && CalmEnd(s, sts).host.log.admitted == s.host.log.admitted
    decreases sts
  {
    if sts != [] {
      WedgedStep(s, sts[0], id);
      WedgedForever(Advance(s, sts[0]), sts[1..], id);
    }
  }

  // ---------------------------------------------------------------- a live admission gets through

  /** The admission is in a slot that a dialer for `id` can come to read. */
  ghost predicate Ready(h: State, id: Id, p: Ref)
  {
    && h.mux && !h.panicked && !h.dialer.Admitted? && Delivered(h, id, p)
    && h.tables.heap[p].ch.value.serviceId == id
  }

  /** How far the dialer is from reading the entry of `id`. */
  function Distance(d: DialerAt, id: Id): nat
  {
    match d
    case Awaiting(k, _) => if k == id then 0 else 4
    case Knocked(k) => if k == id then 1 else 5
    case Locked(k) => if k == id then 2 else 4
    case Unlocked => 3
    case Admitted(_) => 6
  }

  /** What the dialer does next on its way to that entry. */
  function Approach(d: DialerAt, id: Id): KnockEvent
    requires !d.Admitted?
  {
    match d
    case Awaiting(k, _) => if k == id then TakeAck else KnockTimeout
    case Knocked(_) => AwaitAck
    case Locked(k) => SendKnock(k == id)
    case Unlocked => Lock(id)
  }

  lemma {:induction false} ReadyStep(h: State, id: Id, p: Ref)
    requires Ready(h, id, p)
    ensures KnockEnabled(h, Approach(h.dialer, id))
    ensures h.dialer.Awaiting? && h.dialer.id == id ==> KnockNext(h, TakeAck).log.admitted[id] > h.log.admitted[id]
    ensures !(h.dialer.Awaiting? && h.dialer.id == id) ==>
              var h' := KnockNext(h, Approach(h.dialer, id));
              Ready(h', id, p) && Distance(h'.dialer, id) < Distance(h.dialer, id) && h'.log.admitted == h.log.admitted
  {
  }

  lemma {:induction false} Collects(s: System, id: Id, p: Ref)
    requires Ready(s.host, id, p)
    ensures Admits(s, id)
    decreases Distance(s.host.dialer, id)
  {
    ReadyStep(s.host, id, p);
    var st := HostStep(OfKnock(Approach(s.host.dialer, id)));
    if s.host.dialer.Awaiting? && s.host.dialer.id == id {
      AdmitsNow(s, st, id);
    } else {
      Collects(Advance(s, st), id, p);
      AdmitsNext(s, st, id);
    }
  }

  lemma {:induction false} Arrives(s: System, id: Id)
    requires Open(s, id) && s.host.run.Queueing? && Arriving(s.host, id, s.host.run.p)
    ensures Admits(s, id)
  {
    var p := s.host.run.p;
    if Filled(s.host.tables, p) {
      FilledSlot(s, id, p);
    }
    var st := HostStep(OfRun(Queue));
    Collects(Advance(s, st), id, p);
    AdmitsNext(s, st, id);
  }

  lemma {:induction false} Routes(s: System, id: Id)
    requires Open(s, id) && s.host.run.Routing? && AdmissionFor(id)(s.host.run.msg)
    ensures Admits(s, id)
  {
    if s.host.dialer.Awaiting? && s.host.dialer.id == id {
      var st := HostStep(OfKnock(KnockTimeout));
      OpenStep(s, st, id);
      Routes1(Advance(s, st), id);
      AdmitsNext(s, st, id);
    } else {
      Routes1(s, id);
    }
  }

  lemma {:induction false} Routes1(s: System, id: Id)
    requires Open(s, id) && s.host.run.Routing? && AdmissionFor(id)(s.host.run.msg)
    requires !(s.host.dialer.Awaiting? && s.host.dialer.id == id)
    ensures Admits(s, id)
  {
    var st := HostStep(OfRun(Route));
    OpenStep(s, st, id);
    Arrives(Advance(s, st), id);
    AdmitsNext(s, st, id);
  }

  function RunRank(r: RunAt): nat
  {
    match r
    case Routing(_) => 3
    case Queueing(_, _) => 2
    case Spawning(_, _) => 1
    case _ => 0
  }

  /** What Run does next on its way to the next message. */
  function Onward(s: System): RunEvent
    requires !s.host.run.Stopped? && |s.host.log.received| < |s.plugin.log.sent|
  {
    match s.host.run
    case Routing(_) => Route
    case Queueing(_, _) => Queue
    case Spawning(_, _) => Spawn
    case Receiving => Recv(s.plugin.log.sent[|s.host.log.received|])
  }

  lemma {:induction false} Travels(s: System, id: Id)
    requires Open(s, id) && !s.host.run.Stopped? && OnWire(s, id)
    ensures Admits(s, id)
    decreases |s.plugin.log.sent| - |s.host.log.received|, RunRank(s.host.run)
  {
    CountShorter(s.host.log.received, s.plugin.log.sent, AdmissionFor(id));
    var e := Onward(s);
    var st := HostStep(OfRun(e));
    var s' := Advance(s, st);
    OpenStep(s, st, id);
    if e.Recv? && AdmissionFor(id)(e.msg) {
      Routes(s', id);
    } else {
      StillOnWire(s, e, id);
      Travels(s', id);
    }
    AdmitsNext(s, st, id);
  }

  lemma {:induction false} StillOnWire(s: System, e: RunEvent, id: Id)
    requires CanStep(s, HostStep(OfRun(e))) && OnWire(s, id) && !(e.Recv? && AdmissionFor(id)(e.msg))
    ensures OnWire(Advance(s, HostStep(OfRun(e))), id)
  {
    if e.Recv? {
      CountAppend(s.host.log.received, e.msg, AdmissionFor(id));
    }
  }

  lemma {:induction false} Acknowledges(s: System, id: Id)
    requires Open(s, id) && !s.host.run.Stopped? && CountIf(s.plugin.listeners, AckingFor(id)) > 0
    ensures Admits(s, id)
  {
    var i := CountSome(s.plugin.listeners, AckingFor(id));
    var st := PluginStep(OfListen(SendAck(i, true)));
    OpenStep(s, st, id);
    InFlight(s, id, id);
    CountAppend(s.plugin.log.sent, AckMsg(id, ""), AdmissionFor(id));
    Travels(Advance(s, st), id);
    AdmitsNext(s, st, id);
  }

  /** With the door open and nothing on its way through it, some run without un-knocked dials admits
      a dialer if and only if a live admission is left. */
  lemma {:induction false} AdmitsExactlyWhenLive(s: System, id: Id)
    requires Open(s, id)
    ensures Admits(s, id) <==> Live(s, id)
  {
    if Live(s, id) {
      if !s.host.run.Stopped? && CountIf(s.plugin.listeners, AckingFor(id)) > 0 {
        Acknowledges(s, id);
      } else if !s.host.run.Stopped? && OnWire(s, id) {
        Travels(s, id);
      } else if s.host.run.Routing? && AdmissionFor(id)(s.host.run.msg) {
        Routes(s, id);
      } else if p: Ref :| Delivered(s.host, id, p) {
        assert SlotOk(s.host.tables.heap[p]);
        Collects(s, id, p);
      } else {
        Arrives(s, id);
      }
    } else if Admits(s, id) {
      var sts :| CalmRun(s, sts) && CalmEnd(s, sts).host.log.admitted[id] > s.host.log.admitted[id];
      WedgedForever(s, sts, id);
    }
  }

  // ---------------------------------------------------------------- which doors are wedged

  lemma {:induction false} FriendlyRun(s: System, sts: seq<Step>, announced: bool)
    requires Friendly(s) && Brokers(s) && FairRun(s, sts, announced)
    ensures Friendly(Final(s, sts, announced))
    decreases sts
  {
    if sts != [] {
      FriendlyStep(s, sts[0]);
      BrokersStep(s, sts[0]);
      FriendlyRun(Advance(s, sts[0]), sts[1..], announced);
    }
  }

  /** In every run with un-knocked dials kept apart from knocks, an open door with nothing unrouted and
      nobody admitted is one that the two results above speak of. */
  lemma {:induction false} OpenDoors(s: System, id: Id, announced: bool)
    requires Invariant(s, announced) && Friendly(s)
    requires s.knockCh == Some(id) && Unrouted(s) == [] && !s.host.dialer.Admitted?
    ensures Open(s, id)
  {
    forall k: Id ensures s.plugin.log.doors[k] <= s.host.log.admitted[k] + Bit(k == id) {
      assert DoorBalance(s, k);
    }
  }

  lemma {:induction false} NothingInFlight(s: System, id: Id)
    requires Open(s, id) && s.plugin.log.doors[id] == s.host.log.admitted[id]
    ensures !Live(s, id)
  {
    assert Balanced(s.host, id) && Balanced(s.plugin, id);
    CountPrefix(s.host.log.received, s.plugin.log.sent, AdmissionFor(id));
    forall p ensures !Delivered(s.host, id, p) {
      if Delivered(s.host, id, p) {
        CountMember(s.host.tables.heap, p, QueuedAdmission(id));
      }
    }
  }

  lemma {:induction false} FailedDialDoor(s: System, id: Id, k: Id, announced: bool)
    requires Invariant(s, announced) && s.failed[id] > 0
    ensures s.knockCh == Some(id) && s.plugin.log.doors[k] == s.host.log.admitted[k] && s.host.dialer != Admitted(k)
    ensures CountIf(Unrouted(s), TowardId(k)) == 0
  {
    assert DoorBalance(s, k) && DoorBalance(s, id);
    assert Balanced(s.host, k) && Balanced(s.plugin, k) && Balanced(s.host, id) && Balanced(s.plugin, id);
    DoorsBetween(s.host, s.plugin, k);
    DoorsBetween(s.host, s.plugin, id);
    UnroutedCount(s, k);
  }

  /** A muxer.Dial that failed after its ack has wedged the door. */
  lemma {:induction false} FailedDialWedges(s: System, id: Id, announced: bool)
    requires Invariant(s, announced) && Friendly(s) && s.failed[id] > 0
    ensures Wedged(s, id)
  {
    forall k: Id
      ensures s.plugin.log.doors[k] == s.host.log.admitted[k] && s.host.dialer != Admitted(k)
      ensures CountIf(Unrouted(s), TowardId(k)) == 0
    {
      FailedDialDoor(s, id, k, announced);
    }
    FailedDialDoor(s, id, id, announced);
    if Unrouted(s) != [] {
      assert Plain in Unrouted(s) || Unrouted(s)[0].Toward?;
      CountMember(Unrouted(s), 0, TowardId(Unrouted(s)[0].id));
    }
    OpenDoors(s, id, announced);
    NothingInFlight(s, id);
  }
}
