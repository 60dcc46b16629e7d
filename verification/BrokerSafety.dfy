/** What every interleaving of one GRPCBroker keeps, whatever its peer sends. */
module BrokerSafety {
  import opened Basics
  import opened Broker

  // ---------------------------------------------------------------- role separation

  ghost predicate RunOk(h: seq<Pending>, r: RunAt)
  {
    match r
    case Queueing(m, p) => EntryOf(h, p, m.serviceId, IsKnock(m))
    case Spawning(id, p) => EntryOf(h, p, id, false)
    case _ => true
  }

  ghost predicate ListenerOk(h: seq<Pending>, l: Listener)
  {
    && EntryOf(h, l.entry, l.id, true)
    && !l.at.Refused?
    && (l.at.Waiting? || l.at.Opening? || l.at.Acking? ==> EntryOf(h, l.at.p, l.id, true))
  }

  ghost predicate DialOk(h: seq<Pending>, d: DialAt)
  {
    EntryOf(h, d.p, d.id, false) && (d.DialTook? ==> d.msg.serviceId == d.id)
  }

  ghost predicate GoroutinesOk(h: seq<Pending>, s: State)
  {
    && RunOk(h, s.run)
    && (s.dialer.Awaiting? ==> EntryOf(h, s.dialer.p, s.dialer.id, false))
    && (forall r :: r in s.reapers ==> EntryOf(h, r.1, r.0, false))
    && (forall d :: d in s.dials ==> DialOk(h, d))
    && (forall i :: 0 <= i < |s.listeners| ==> ListenerOk(h, s.listeners[i]))
  }

  /** Slots hold only messages of their own id and role, every goroutine waits on an entry of
      its own id and role, and no listener has met a message it cannot explain. */
  ghost predicate Separated(s: State)
  {
    TablesOk(s.tables) && GoroutinesOk(s.tables.heap, s)
  }

  lemma {:induction false} GoroutinesGrow(h: seq<Pending>, h': seq<Pending>, s: State)
    requires Grows(h, h') && GoroutinesOk(h, s)
    ensures GoroutinesOk(h', s)
  {
  }

  lemma {:induction false} SeparatedRun(s: State, e: RunEvent)
    requires Separated(s) && RunEnabled(s, e)
    ensures Separated(RunNext(s, e))
  {
    var s' := RunNext(s, e);
    GoroutinesGrow(s.tables.heap, s'.tables.heap, s);
  }

  lemma {:induction false} SeparatedDialTake(s: State, id: Id, p: Ref)
    requires Separated(s) && DialEnabled(s, DialTake(id, p))
    ensures Separated(DialNext(s, DialTake(id, p)))
  {
    var s' := DialNext(s, DialTake(id, p));
    GoroutinesGrow(s.tables.heap, s'.tables.heap, s);
    assert DialOk(s.tables.heap, DialWaiting(id, p)) && SlotOk(s.tables.heap[p]);
    forall d | d in s'.dials ensures DialOk(s'.tables.heap, d) {
      assert d in s.dials || d == DialTook(id, p, s.tables.heap[p].ch.value);
    }
  }

  lemma {:induction false} SeparatedDial(s: State, e: DialEvent)
    requires Separated(s) && DialEnabled(s, e)
    ensures Separated(DialNext(s, e))
  {
    if e.DialTake? {
      SeparatedDialTake(s, e.id, e.p);
    } else {
      var s' := DialNext(s, e);
      GoroutinesGrow(s.tables.heap, s'.tables.heap, s);
      forall d | d in s'.dials ensures DialOk(s'.tables.heap, d) {
        assert d in s.dials || e.DialStart?;
      }
    }
  }

  lemma {:induction false} SeparatedKnock(s: State, e: KnockEvent)
    requires Separated(s) && KnockEnabled(s, e)
    ensures Separated(KnockNext(s, e))
  {
    var s' := KnockNext(s, e);
    GoroutinesGrow(s.tables.heap, s'.tables.heap, s);
  }

  /** Moving listener `i` keeps separation when its new position is right. */
  lemma {:induction false} SeparatedMove(s: State, i: nat, at: ListenAt, t: Tables, log: Log)
    requires Separated(s) && i < |s.listeners| && TablesOk(t) && Grows(s.tables.heap, t.heap)
    requires ListenerOk(t.heap, s.listeners[i].(at := at))
    ensures Separated(SetListener(s, i, at).(tables := t, log := log))
  {
    GoroutinesGrow(s.tables.heap, t.heap, s);
  }

  lemma {:induction false} SeparatedListener(s: State, e: ListenEvent)
    requires Separated(s) && ListenEnabled(s, e)
    requires !e.AcceptMux? && !e.CloseDoor? && !e.Forget?
    ensures Separated(ListenNext(s, e))
  {
    var l := s.listeners[e.i];
    assert ListenerOk(s.tables.heap, l);
    if e.ListenStart? {
      var (t, p) := GetServer(s.tables, l.id);
      SeparatedMove(s, e.i, Waiting(p), t, s.log);
    } else if e.ListenTake? {
      SeparatedMove(s, e.i, Opening(l.at.p), SetCh(s.tables, l.at.p, None), s.log);
    } else {
      var s' := ListenNext(s, e);
      SeparatedMove(s, e.i, s'.listeners[e.i].at, s.tables, s'.log);
    }
  }

  lemma {:induction false} SeparatedListen(s: State, e: ListenEvent)
    requires Separated(s) && ListenEnabled(s, e)
    ensures Separated(ListenNext(s, e))
  {
    if e.AcceptMux? || e.CloseDoor? || e.Forget? {
      GoroutinesGrow(s.tables.heap, ListenNext(s, e).tables.heap, s);
    } else {
      SeparatedListener(s, e);
    }
  }

  // ---------------------------------------------------------------- no pending entry leaks

  /** A goroutine that will delete the entry's key: its timeoutWait, or Run about to start it. */
  ghost predicate Guarded(s: State, id: Id, p: Ref)
  {
    (id, p) in s.reapers || s.run == Spawning(id, p)
  }

  ghost predicate Owner(s: State, id: Id, p: Ref)
  {
    || Guarded(s, id, p)
    || (s.run.Queueing? && s.run.p == p && !IsKnock(s.run.msg))
    || DialWaiting(id, p) in s.dials
    || s.dialer == Awaiting(id, p)
  }

  /** A key of clientStreams has a goroutine that will delete it, and if its entry holds a
      message then one that does not depend on the message being read. */
  ghost predicate OwnedAt(s: State, id: Id)
  {
    id in s.tables.clientStreams ==>
      var p := s.tables.clientStreams[id];
      && EntryOf(s.tables.heap, p, id, false)
      && Owner(s, id, p)
      && (Filled(s.tables, p) ==> Guarded(s, id, p))
  }

  lemma {:induction false} OwnedRoute(s: State, id: Id)
    requires OwnedAt(s, id) && RunEnabled(s, Route)
    ensures OwnedAt(RunNext(s, Route), id)
  {
  }

  lemma {:induction false} OwnedQueue(s: State, id: Id)
    requires OwnedAt(s, id) && RunOk(s.tables.heap, s.run) && RunEnabled(s, Queue)
    ensures OwnedAt(QueueStep(s), id)
  {
  }

  lemma {:induction false} OwnedRun(s: State, e: RunEvent, id: Id)
    requires OwnedAt(s, id) && RunOk(s.tables.heap, s.run) && RunEnabled(s, e)
    ensures OwnedAt(RunNext(s, e), id)
  {
    match e
    case Route => OwnedRoute(s, id);
    case Queue => OwnedQueue(s, id);
    case _ =>
  }

  lemma {:induction false} OwnedDialTake(s: State, key: Id, p: Ref, id: Id)
    requires OwnedAt(s, id) && DialEnabled(s, DialTake(key, p)) && EntryOf(s.tables.heap, p, key, false)
    ensures OwnedAt(DialNext(s, DialTake(key, p)), id)
  {
  }

  lemma {:induction false} OwnedDialFinish(s: State, key: Id, p: Ref, m: ConnInfo, id: Id)
    requires OwnedAt(s, id) && DialEnabled(s, DialFinish(key, p, m))
    ensures OwnedAt(DialFinishStep(s, key, p, m), id)
  {
  }

  lemma {:induction false} OwnedDial(s: State, e: DialEvent, id: Id)
    requires OwnedAt(s, id) && DialEnabled(s, e)
    requires e.DialTake? || e.DialFinish? ==> EntryOf(s.tables.heap, e.p, e.id, false)
    ensures OwnedAt(DialNext(s, e), id)
  {
    match e
    case DialTake(key, p) => OwnedDialTake(s, key, p, id);
    case DialFinish(key, p, m) => OwnedDialFinish(s, key, p, m, id);
    case _ =>
  }

  lemma {:induction false} OwnedKnock(s: State, e: KnockEvent, id: Id)
    requires OwnedAt(s, id) && KnockEnabled(s, e)
    requires s.dialer.Awaiting? ==> EntryOf(s.tables.heap, s.dialer.p, s.dialer.id, false)
    ensures OwnedAt(KnockNext(s, e), id)
  {
  }

  lemma {:induction false} OwnedListen(s: State, e: ListenEvent, id: Id)
    requires OwnedAt(s, id) && ListenEnabled(s, e)
    ensures OwnedAt(ListenNext(s, e), id)
  {
  }

  // ---------------------------------------------------------------- knock accounting

  predicate Holds(r: RunAt, p: ConnInfo -> bool)
  {
    (r.Routing? || r.Queueing?) && p(r.msg)
  }

  /** Every knock and every admission received for `id` is in exactly one place, and every door
      opened for `id` has been acknowledged, is about to be, or could not be. */
  ghost predicate Balanced(s: State, id: Id)
  {
    && CountIf(s.log.received, KnockFor(id)) ==
         Bit(Holds(s.run, KnockFor(id))) + CountIf(s.tables.heap, QueuedKnock(id)) +
         CountIf(s.listeners, OpeningFor(id)) + s.log.doors[id] + s.log.refused[id] + s.log.knockDrops[id]
    && s.log.doors[id] ==
         CountIf(s.listeners, AckingFor(id)) + CountIf(s.log.sent, AdmissionFor(id)) + s.log.ackFails[id]
    && CountIf(s.log.received, AdmissionFor(id)) ==
         Bit(Holds(s.run, AdmissionFor(id))) + CountIf(s.tables.heap, QueuedAdmission(id)) +
         s.log.admitted[id] + s.log.ackDrops[id]
  }

  /** Getting an entry adds at most an empty one. */
  lemma {:induction false} CountsGet(t: Tables, key: Id, id: Id)
    ensures CountIf(GetClient(t, key).0.heap, QueuedKnock(id)) == CountIf(t.heap, QueuedKnock(id))
    ensures CountIf(GetClient(t, key).0.heap, QueuedAdmission(id)) == CountIf(t.heap, QueuedAdmission(id))
    ensures CountIf(GetServer(t, key).0.heap, QueuedKnock(id)) == CountIf(t.heap, QueuedKnock(id))
    ensures CountIf(GetServer(t, key).0.heap, QueuedAdmission(id)) == CountIf(t.heap, QueuedAdmission(id))
  {
    CountAppend(t.heap, Pending(key, false, None, false), QueuedKnock(id));
    CountAppend(t.heap, Pending(key, false, None, false), QueuedAdmission(id));
    CountAppend(t.heap, Pending(key, true, None, false), QueuedKnock(id));
    CountAppend(t.heap, Pending(key, true, None, false), QueuedAdmission(id));
  }

  lemma {:induction false} CountsSet(t: Tables, p: Ref, e: Pending, id: Id)
    requires p < |t.heap|
    ensures CountIf(t.heap[p := e], QueuedKnock(id)) + Bit(QueuedKnock(id)(t.heap[p])) ==
            CountIf(t.heap, QueuedKnock(id)) + Bit(QueuedKnock(id)(e))
    ensures CountIf(t.heap[p := e], QueuedAdmission(id)) + Bit(QueuedAdmission(id)(t.heap[p])) ==
            CountIf(t.heap, QueuedAdmission(id)) + Bit(QueuedAdmission(id)(e))
  {
    CountUpdate(t.heap, p, e, QueuedKnock(id));
    CountUpdate(t.heap, p, e, QueuedAdmission(id));
  }

  lemma {:induction false} CountsTake(t: Tables, p: Ref, id: Id)
    requires Filled(t, p) && SlotOk(t.heap[p])
    ensures CountIf(SetCh(t, p, None).heap, QueuedKnock(id)) + Bit(KnockFor(id)(t.heap[p].ch.value)) ==
            CountIf(t.heap, QueuedKnock(id))
    ensures CountIf(SetCh(t, p, None).heap, QueuedAdmission(id)) + Bit(AdmissionFor(id)(t.heap[p].ch.value)) ==
            CountIf(t.heap, QueuedAdmission(id))
  {
    CountsSet(t, p, t.heap[p].(ch := None), id);
  }

  lemma {:induction false} CountsDone(t: Tables, p: Ref, id: Id)
    requires p < |t.heap|
    ensures CountIf(SetDone(t, p).heap, QueuedKnock(id)) == CountIf(t.heap, QueuedKnock(id))
    ensures CountIf(SetDone(t, p).heap, QueuedAdmission(id)) == CountIf(t.heap, QueuedAdmission(id))
  {
    CountsSet(t, p, t.heap[p].(done := true), id);
  }

  /** Filling a slot with the message Run holds moves it from one place to another. */
  lemma {:induction false} BalancedFill(s: State, run: RunAt, id: Id)
    requires Balanced(s, id) && RunEnabled(s, Queue) && RunOk(s.tables.heap, s.run) && s.tables.heap[s.run.p].ch.None?
    requires run.Receiving? || run.Spawning?
    ensures Balanced(s.(tables := SetCh(s.tables, s.run.p, Some(s.run.msg)), run := run), id)
  {
    var m, p := s.run.msg, s.run.p;
    var q := s.tables.heap[p].(ch := Some(m));
    CountsSet(s.tables, p, q, id);
    assert QueuedKnock(id)(q) == KnockFor(id)(m) && QueuedAdmission(id)(q) == AdmissionFor(id)(m);
  }

  lemma {:induction false} BalancedQueue(s: State, id: Id)
    requires Balanced(s, id) && RunEnabled(s, Queue) && RunOk(s.tables.heap, s.run)
    ensures Balanced(QueueStep(s), id)
  {
    if s.tables.heap[s.run.p].ch.None? {
      BalancedFill(s, QueueStep(s).run, id);
    }
  }

  lemma {:induction false} BalancedRoute(s: State, id: Id)
    requires Balanced(s, id) && RunEnabled(s, Route)
    ensures Balanced(RunNext(s, Route), id)
  {
    CountsGet(s.tables, s.run.msg.serviceId, id);
  }

  lemma {:induction false} BalancedRun(s: State, e: RunEvent, id: Id)
    requires Balanced(s, id) && RunEnabled(s, e)
    requires RunOk(s.tables.heap, s.run)
    ensures Balanced(RunNext(s, e), id)
  {
    match e
    case Recv(m) =>
      CountAppend(s.log.received, m, KnockFor(id));
      CountAppend(s.log.received, m, AdmissionFor(id));
    case Route => BalancedRoute(s, id);
    case Queue => BalancedQueue(s, id);
    case _ =>
  }

  lemma {:induction false} BalancedDialTake(s: State, key: Id, p: Ref, id: Id)
    requires Balanced(s, id) && DialEnabled(s, DialTake(key, p))
    requires EntryOf(s.tables.heap, p, key, false) && SlotOk(s.tables.heap[p])
    ensures Balanced(DialNext(s, DialTake(key, p)), id)
  {
    CountsTake(s.tables, p, id);
  }

  lemma {:induction false} BalancedDial(s: State, e: DialEvent, id: Id)
    requires Balanced(s, id) && DialEnabled(s, e)
    requires e.DialTake? ==> EntryOf(s.tables.heap, e.p, e.id, false) && SlotOk(s.tables.heap[e.p])
    ensures Balanced(DialNext(s, e), id)
  {
    match e
    case DialStart(key) => CountsGet(s.tables, key, id);
    case DialTake(key, p) => BalancedDialTake(s, key, p, id);
    case DialFinish(_, p, _) => CountsDone(s.tables, p, id);
    case AcceptAddr(key, at, _) =>
      var to := Advertised(s.translator, at);
      if to.Some? {
        CountAppend(s.log.sent, AddrMsg(key, to.value), AdmissionFor(id));
      }
    case _ =>
  }

  /** Emptying a dialer's slot is balanced by counting what was in it as admitted. */
  lemma {:induction false} BalancedAdmit(s: State, p: Ref, dialer: DialerAt, admitted: multiset<Id>, id: Id)
    requires Balanced(s, id) && Filled(s.tables, p) && SlotOk(s.tables.heap[p]) && !s.tables.heap[p].knocks
    requires admitted[id] == s.log.admitted[id] + Bit(AdmissionFor(id)(s.tables.heap[p].ch.value))
    ensures Balanced(s.(tables := SetCh(s.tables, p, None), dialer := dialer, log := s.log.(admitted := admitted)), id)
  {
    CountsTake(s.tables, p, id);
  }

  lemma {:induction false} BalancedTakeAck(s: State, id: Id)
    requires Balanced(s, id) && KnockEnabled(s, TakeAck)
    requires EntryOf(s.tables.heap, s.dialer.p, s.dialer.id, false) && SlotOk(s.tables.heap[s.dialer.p])
    ensures Balanced(TakeAckStep(s), id)
  {
    var s' := TakeAckStep(s);
    BalancedAdmit(s, s.dialer.p, s'.dialer, s'.log.admitted, id);
  }

  lemma {:induction false} BalancedKnock(s: State, e: KnockEvent, id: Id)
    requires Balanced(s, id) && KnockEnabled(s, e)
    requires e.TakeAck? ==> EntryOf(s.tables.heap, s.dialer.p, s.dialer.id, false) && SlotOk(s.tables.heap[s.dialer.p])
    ensures Balanced(KnockNext(s, e), id)
  {
    match e
    case SendKnock(_) => CountAppend(s.log.sent, KnockMsg(s.dialer.id), AdmissionFor(id));
    case AwaitAck => CountsGet(s.tables, s.dialer.id, id);
    case TakeAck => BalancedTakeAck(s, id);
    case _ =>
  }

  /** listenForKnocks up to its receive. */
  lemma {:induction false} BalancedListenTake(s: State, e: ListenEvent, id: Id)
    requires Balanced(s, id) && ListenEnabled(s, e) && (e.ListenStart? || e.ListenTake?)
    requires e.ListenTake? ==>
               var l := s.listeners[e.i];
               EntryOf(s.tables.heap, l.at.p, l.id, true) && SlotOk(s.tables.heap[l.at.p])
    ensures Balanced(ListenNext(s, e), id)
  {
    var l, l' := s.listeners[e.i], ListenNext(s, e).listeners[e.i];
    CountUpdate(s.listeners, e.i, l', OpeningFor(id));
    CountUpdate(s.listeners, e.i, l', AckingFor(id));
    if e.ListenTake? {
      CountsTake(s.tables, l.at.p, id);
    } else {
      CountsGet(s.tables, l.id, id);
    }
  }

  lemma {:induction false} BalancedOpenDoor(s: State, i: nat, error: string, id: Id)
    requires Balanced(s, id) && ListenEnabled(s, OpenDoor(i, error))
    ensures Balanced(ListenNext(s, OpenDoor(i, error)), id)
  {
    var l := s.listeners[i];
    var l' := l.(at := Acking(l.at.p, error));
    CountUpdate(s.listeners, i, l', OpeningFor(id));
    CountUpdate(s.listeners, i, l', AckingFor(id));
    assert AckingFor(id)(l') == (l.id == id && error == "");
  }

  lemma {:induction false} BalancedSendAck(s: State, i: nat, ok: bool, id: Id)
    requires Balanced(s, id) && ListenEnabled(s, SendAck(i, ok))
    ensures Balanced(ListenNext(s, SendAck(i, ok)), id)
  {
    var l := s.listeners[i];
    var l' := l.(at := if ok then Waiting(l.at.p) else Exited);
    CountUpdate(s.listeners, i, l', OpeningFor(id));
    CountUpdate(s.listeners, i, l', AckingFor(id));
    CountAppend(s.log.sent, AckMsg(l.id, l.at.error), AdmissionFor(id));
    assert AdmissionFor(id)(AckMsg(l.id, l.at.error)) == AckingFor(id)(l);
  }

  lemma {:induction false} BalancedListenDone(s: State, i: nat, id: Id)
    requires Balanced(s, id) && ListenEnabled(s, ListenDone(i))
    ensures Balanced(ListenNext(s, ListenDone(i)), id)
  {
    CountUpdate(s.listeners, i, s.listeners[i].(at := Exited), OpeningFor(id));
    CountUpdate(s.listeners, i, s.listeners[i].(at := Exited), AckingFor(id));
  }

  lemma {:induction false} BalancedListen(s: State, e: ListenEvent, id: Id)
    requires Balanced(s, id) && ListenEnabled(s, e)
    requires e.ListenTake? ==>
               var l := s.listeners[e.i];
               EntryOf(s.tables.heap, l.at.p, l.id, true) && SlotOk(s.tables.heap[l.at.p])
    ensures Balanced(ListenNext(s, e), id)
  {
    match e
    case AcceptMux(key) =>
      var l := Listener(key, GetServer(s.tables, key).1, Starting);
      CountsGet(s.tables, key, id);
      CountAppend(s.listeners, l, OpeningFor(id));
      CountAppend(s.listeners, l, AckingFor(id));
    case CloseDoor(i) => CountsDone(s.tables, s.listeners[i].entry, id);
    case Forget(_) =>
    case ListenStart(_) => BalancedListenTake(s, e, id);
    case ListenTake(_) => BalancedListenTake(s, e, id);
    case OpenDoor(i, error) => BalancedOpenDoor(s, i, error, id);
    case SendAck(i, ok) => BalancedSendAck(s, i, ok, id);
    case ListenDone(i) => BalancedListenDone(s, i, id);
  }

  // ---------------------------------------------------------------- where addresses come from

  ghost predicate SlotsReceived(h: seq<Pending>, received: seq<ConnInfo>)
  {
    forall p :: 0 <= p < |h| && h[p].ch.Some? ==> h[p].ch.value in received
  }

  ghost predicate DialReceived(s: State, d: DialAt)
  {
    d.DialTook? ==> d.msg in s.log.received && d.msg.serviceId == d.id
  }

  /** `d` connected to the address some received message carried for its id. */
  ghost predicate FromMessage(s: State, d: Dialled)
  {
    d.msg in s.log.received && d.msg.serviceId == d.id && DialTarget(s.translator, d.msg) == Some(d.at)
  }

  /** The i-th message sent carries the address of this side's i-th listener. */
  ghost predicate FromListener(s: State, i: nat)
    requires i < |s.log.sent| == |s.log.adverts|
  {
    var a, m := s.log.adverts[i], s.log.sent[i];
    a.id == m.serviceId && Advertised(s.translator, a.at) == Some((m.network, m.address))
  }

  /** Without multiplexing, every address dialled was received for that id and every message
      sent advertises a listener. */
  ghost predicate Sourced(s: State)
  {
    && SlotsReceived(s.tables.heap, s.log.received)
    && (s.run.Routing? || s.run.Queueing? ==> s.run.msg in s.log.received)
    && (forall d :: d in s.dials ==> DialReceived(s, d))
    && (forall d :: d in s.log.dialled ==> FromMessage(s, d))
    && |s.log.sent| == |s.log.adverts|
    && (forall i :: 0 <= i < |s.log.sent| ==> FromListener(s, i))
  }

  lemma {:induction false} SlotsRun(s: State, e: RunEvent)
    requires Sourced(s) && RunEnabled(s, e)
    ensures SlotsReceived(RunNext(s, e).tables.heap, RunNext(s, e).log.received)
  {
  }

  lemma {:induction false} SourcedRun(s: State, e: RunEvent)
    requires Sourced(s) && RunEnabled(s, e)
    ensures Sourced(RunNext(s, e))
  {
    var s' := RunNext(s, e);
    SlotsRun(s, e);
    forall d | d in s'.dials ensures DialReceived(s', d) { assert DialReceived(s, d); }
    forall d | d in s'.log.dialled ensures FromMessage(s', d) { assert FromMessage(s, d); }
    forall i | 0 <= i < |s'.log.sent| ensures FromListener(s', i) { assert FromListener(s, i); }
  }

  lemma {:induction false} SourcedTake(s: State, id: Id, p: Ref)
    requires Sourced(s) && DialEnabled(s, DialTake(id, p))
    requires EntryOf(s.tables.heap, p, id, false) && SlotOk(s.tables.heap[p])
    ensures Sourced(DialNext(s, DialTake(id, p)))
  {
    var s' := DialNext(s, DialTake(id, p));
    forall d | d in s'.dials ensures DialReceived(s', d) {
      assert d in s.dials ==> DialReceived(s, d);
    }
    forall d | d in s'.log.dialled ensures FromMessage(s', d) { assert FromMessage(s, d); }
    forall i | 0 <= i < |s'.log.sent| ensures FromListener(s', i) { assert FromListener(s, i); }
  }

  lemma {:induction false} SourcedFinish(s: State, id: Id, p: Ref, m: ConnInfo)
    requires Sourced(s) && DialEnabled(s, DialFinish(id, p, m))
    ensures Sourced(DialFinishStep(s, id, p, m))
  {
    var s' := DialFinishStep(s, id, p, m);
    forall d | d in s'.dials ensures DialReceived(s', d) {
      assert d in s.dials ==> DialReceived(s, d);
    }
    assert SlotsReceived(s'.tables.heap, s'.log.received);
    assert DialReceived(s, DialTook(id, p, m));
    forall d | d in s'.log.dialled ensures FromMessage(s', d) {
      assert d in s.log.dialled ==> FromMessage(s, d);
    }
    forall i | 0 <= i < |s'.log.sent| ensures FromListener(s', i) {
      assert i < |s.log.sent| ==> FromListener(s, i);
    }
  }

  lemma {:induction false} SourcedDial(s: State, e: DialEvent)
    requires Sourced(s) && DialEnabled(s, e)
    requires e.DialTake? ==> EntryOf(s.tables.heap, e.p, e.id, false) && SlotOk(s.tables.heap[e.p])
    ensures Sourced(DialNext(s, e))
  {
    if e.DialTake? {
      SourcedTake(s, e.id, e.p);
    } else if e.DialFinish? {
      SourcedFinish(s, e.id, e.p, e.msg);
    } else {
      var s' := DialNext(s, e);
      forall d | d in s'.dials ensures DialReceived(s', d) {
        assert d in s.dials ==> DialReceived(s, d);
      }
      assert SlotsReceived(s'.tables.heap, s'.log.received);
      forall d | d in s'.log.dialled ensures FromMessage(s', d) {
        assert d in s.log.dialled ==> FromMessage(s, d);
      }
      forall i | 0 <= i < |s'.log.sent| ensures FromListener(s', i) {
        assert i < |s.log.sent| ==> FromListener(s, i);
      }
    }
  }

  // ---------------------------------------------------------------- every interleaving

  ghost predicate Safe(s: State)
  {
    && Separated(s)
    && (forall id: Id :: OwnedAt(s, id))
    && (forall id: Id :: Balanced(s, id))
    && (!s.mux ==> Sourced(s))
  }

  /** What the per-step lemmas need to know about the entry a step touches. */
  ghost predicate Touches(s: State, e: Event)
    requires Enabled(s, e)
  {
    match e
    case OfRun(_) => RunOk(s.tables.heap, s.run)
    case OfDial(d) =>
      && (d.DialTake? || d.DialFinish? ==> EntryOf(s.tables.heap, d.p, d.id, false))
      && (d.DialTake? ==> SlotOk(s.tables.heap[d.p]))
    case OfKnock(k) =>
      && (s.dialer.Awaiting? ==> EntryOf(s.tables.heap, s.dialer.p, s.dialer.id, false))
      && (k.TakeAck? ==> SlotOk(s.tables.heap[s.dialer.p]))
    case OfListen(l) =>
      l.ListenTake? ==>
        var at := s.listeners[l.i].at;
        EntryOf(s.tables.heap, at.p, s.listeners[l.i].id, true) && SlotOk(s.tables.heap[at.p])
  }

  lemma {:induction false} SeparatedTouches(s: State, e: Event)
    requires Separated(s) && Enabled(s, e)
    ensures Touches(s, e)
  {
    match e
    case OfRun(_) =>
    case OfDial(d) =>
      if d.DialTake? {
        assert DialOk(s.tables.heap, DialWaiting(d.id, d.p));
      } else if d.DialFinish? {
        assert DialOk(s.tables.heap, DialTook(d.id, d.p, d.msg));
      }
    case OfKnock(_) =>
    case OfListen(l) =>
      if l.ListenTake? {
        assert ListenerOk(s.tables.heap, s.listeners[l.i]);
      }
  }

  lemma {:induction false} SeparatedStep(s: State, e: Event)
    requires Separated(s) && Enabled(s, e)
    ensures Separated(Next(s, e))
  {
    match e
    case OfRun(r) => SeparatedRun(s, r);
    case OfDial(d) => SeparatedDial(s, d);
    case OfKnock(k) => SeparatedKnock(s, k);
    case OfListen(l) => SeparatedListen(s, l);
  }

  lemma {:induction false} OwnedStep(s: State, e: Event, id: Id)
    requires OwnedAt(s, id) && Enabled(s, e) && Touches(s, e)
    ensures OwnedAt(Next(s, e), id)
  {
    match e
    case OfRun(r) => OwnedRun(s, r, id);
    case OfDial(d) => OwnedDial(s, d, id);
    case OfKnock(k) => OwnedKnock(s, k, id);
    case OfListen(l) => OwnedListen(s, l, id);
  }

  lemma {:induction false} BalancedStep(s: State, e: Event, id: Id)
    requires Balanced(s, id) && Enabled(s, e) && Touches(s, e)
    ensures Balanced(Next(s, e), id)
  {
    match e
    case OfRun(r) => BalancedRun(s, r, id);
    case OfDial(d) => BalancedDial(s, d, id);
    case OfKnock(k) => BalancedKnock(s, k, id);
    case OfListen(l) => BalancedListen(s, l, id);
  }

  lemma {:induction false} SourcedStep(s: State, e: Event)
    requires Sourced(s) && Enabled(s, e) && Touches(s, e) && !s.mux
    ensures Sourced(Next(s, e)) && !Next(s, e).mux
  {
    match e
    case OfRun(r) => SourcedRun(s, r);
    case OfDial(d) => SourcedDial(s, d);
  }

  lemma {:induction false} ModeStays(s: State, e: Event)
    requires Enabled(s, e)
    ensures Next(s, e).mux == s.mux && Next(s, e).translator == s.translator
  {
  }

  /** Each step of each goroutine keeps all of it. */
  lemma {:induction false} SafeStep(s: State, e: Event)
    requires Safe(s) && Enabled(s, e)
    ensures Safe(Next(s, e))
  {
    SeparatedTouches(s, e);
    SeparatedStep(s, e);
    ModeStays(s, e);
    forall id: Id ensures OwnedAt(Next(s, e), id) { OwnedStep(s, e, id); }
    forall id: Id ensures Balanced(Next(s, e), id) { BalancedStep(s, e, id); }
    if !s.mux { SourcedStep(s, e); }
  }

  lemma SafeInit(mux: bool, translator: Option<Translator>)
    ensures Safe(Init(mux, translator))
  {
  }

  lemma {:induction false} SafeRun(s: State, es: seq<Event>)
    requires Safe(s) && Runs(s, es)
    ensures Safe(After(s, es))
    ensures After(s, es).mux == s.mux && After(s, es).translator == s.translator
    decreases es
  {
    if es != [] {
      SafeStep(s, es[0]);
      ModeStays(s, es[0]);
      SafeRun(Next(s, es[0]), es[1..]);
    }
  }

  /** Every interleaving of a fresh broker is safe, whatever messages the peer sends. */
  lemma {:induction false} Reached(mux: bool, translator: Option<Translator>, s: State)
    requires Reaches(Init(mux, translator), s)
    ensures Safe(s) && s.mux == mux && s.translator == translator
  {
    var es :| Runs(Init(mux, translator), es) && After(Init(mux, translator), es) == s;
    SafeInit(mux, translator);
    SafeRun(Init(mux, translator), es);
  }

  /** No timeoutWait, waiting Dial, waiting knock or delivery is active. */
  ghost predicate Idle(s: State)
  {
    && s.reapers == multiset{} && !s.run.Queueing? && !s.run.Spawning? && !s.dialer.Awaiting?
    && (forall d :: d in s.dials ==> !d.DialWaiting?)
  }

  lemma {:induction false} IdleIsEmpty(s: State)
    requires Safe(s) && Idle(s)
    ensures s.tables.clientStreams == map[]
  {
    forall id: Id ensures id !in s.tables.clientStreams {
      assert OwnedAt(s, id);
    }
  }

  /** The table of pending dials is empty whenever nothing that owns an entry is active. */
  lemma {:induction false} NoEntryLeaks(mux: bool, translator: Option<Translator>, s: State)
    requires Reaches(Init(mux, translator), s) && Idle(s)
    ensures s.tables.clientStreams == map[]
  {
    Reached(mux, translator, s);
    IdleIsEmpty(s);
  }

  /** listenForKnocks never meets a message that fails its checks, for any peer. */
  lemma {:induction false} ImpossibleChecks(mux: bool, translator: Option<Translator>, s: State, i: nat)
    requires Reaches(Init(mux, translator), s) && i < |s.listeners|
    ensures !s.listeners[i].at.Refused?
    ensures Enabled(s, OfListen(ListenTake(i))) ==>
              var m := s.tables.heap[s.listeners[i].at.p].ch.value;
              m.serviceId == s.listeners[i].id && IsKnock(m)
  {
    Reached(mux, translator, s);
    assert ListenerOk(s.tables.heap, s.listeners[i]);
  }

  // ---------------------------------------------------------------- what a step leaves alone

  /** Messages go out at the end, and come in one at a time. */
  lemma {:induction false} Traffic(s: State, e: Event)
    requires Enabled(s, e)
    ensures s.log.sent <= Next(s, e).log.sent
    ensures Next(s, e).log.received == s.log.received + if e.OfRun? && e.r.Recv? then [e.r.msg] else []
  {
  }

  /** Only SendKnock knocks. */
  lemma {:induction false} KnocksStay(s: State, e: Event, id: Id)
    requires Enabled(s, e) && e != OfKnock(SendKnock(true))
    ensures CountIf(Next(s, e).log.sent, KnockFor(id)) == CountIf(s.log.sent, KnockFor(id))
  {
    match e
    case OfListen(l) =>
      if l.SendAck? {
        CountAppend(s.log.sent, AckMsg(s.listeners[l.i].id, s.listeners[l.i].at.error), KnockFor(id));
      }
    case OfDial(d) =>
      if d.AcceptAddr? && Advertised(s.translator, d.at).Some? {
        CountAppend(s.log.sent, AddrMsg(d.id, Advertised(s.translator, d.at).value), KnockFor(id));
      }
    case _ =>
  }

  /** Nothing that was counted is taken back. */
  lemma {:induction false} LogGrows(s: State, e: Event, id: Id)
    requires Enabled(s, e)
    ensures s.log.doors[id] <= Next(s, e).log.doors[id]
    ensures s.log.refused[id] <= Next(s, e).log.refused[id]
    ensures s.log.knockDrops[id] <= Next(s, e).log.knockDrops[id]
    ensures s.log.admitted[id] <= Next(s, e).log.admitted[id]
  {
    match e
    case OfRun(_) => case OfDial(_) => case OfKnock(_) => case OfListen(_) =>
  }

  /** Only OpenDoor opens doors, only TakeAck admits, and it admits the dialer that waits. */
  lemma {:induction false} Frame(s: State, e: Event, id: Id)
    requires Enabled(s, e)
    ensures !(e.OfListen? && e.l.OpenDoor?) ==> Next(s, e).log.doors == s.log.doors
    ensures e != OfKnock(TakeAck) ==> Next(s, e).log.admitted == s.log.admitted
    ensures !(e.OfKnock? && e.k.OpenStream?) ==>
              Next(s, e).log.admitted[id] + Bit(s.dialer == Admitted(id)) ==
              s.log.admitted[id] + Bit(Next(s, e).dialer == Admitted(id))
  {
  }
}
