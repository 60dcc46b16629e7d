/**
 One side's GRPCBroker (grpc_broker.go) with every goroutine that touches it:
 Run, timeoutWait, Dial, the knock of the multiplexed dialer that holds dialMutex,
 Accept and listenForKnocks.  A step is one lock region or one channel operation, so
 a sequence of steps is one interleaving; a timeout is a step that may always be taken.

 Pending entries live in an arena and are named by their index, because goroutines
 keep using an entry after the tables have forgotten it.
*/
module Broker {
  import opened Basics

  /** An index into the arena of pending entries. */
  type Ref = nat

  type NetAddr = (string, string)

  datatype Knock = Knock(knock: bool, ack: bool, error: string)

  datatype ConnInfo = ConnInfo(serviceId: Id, network: string, address: string, knock: Option<Knock>)

  /** The test Run uses to choose a table (grpc_broker.go:603). */
  predicate IsKnock(m: ConnInfo)
  {
    m.knock.Some? && m.knock.value.knock && !m.knock.value.ack
  }

  /** The test knock uses to let the dialer through (grpc_broker.go:487-492). */
  predicate IsAdmission(m: ConnInfo)
  {
    m.knock.Some? && m.knock.value.knock && m.knock.value.ack && m.knock.value.error == ""
  }

  function KnockMsg(id: Id): (m: ConnInfo)
  {
    ConnInfo(id, "", "", Some(Knock(true, false, "")))
  }

  function AckMsg(id: Id, error: string): (m: ConnInfo)
  {
    ConnInfo(id, "", "", Some(Knock(true, true, error)))
  }

  function AddrMsg(id: Id, at: NetAddr): (m: ConnInfo)
  {
    ConnInfo(id, at.0, at.1, None)
  }

  function KnockFor(id: Id): ConnInfo -> bool
  {
    (m: ConnInfo) => m.serviceId == id && IsKnock(m)
  }

  function AdmissionFor(id: Id): ConnInfo -> bool
  {
    (m: ConnInfo) => m.serviceId == id && IsAdmission(m)
  }

  // ---------------------------------------------------------------- the pending tables

  /** gRPCBrokerPending: a one-slot channel and a done channel.  `id` and `knocks` record the
      key and the table (serverStreams when `knocks`) the entry was made for. */
  datatype Pending = Pending(id: Id, knocks: bool, ch: Option<ConnInfo>, done: bool)

  function QueuedKnock(id: Id): Pending -> bool
  {
    (p: Pending) => p.id == id && p.knocks && p.ch.Some?
  }

  function QueuedAdmission(id: Id): Pending -> bool
  {
    (p: Pending) => p.id == id && !p.knocks && p.ch.Some? && IsAdmission(p.ch.value)
  }

  /** The two tables of pending entries and the arena they point into. */
  datatype Tables = Tables(heap: seq<Pending>, clientStreams: map<Id, Ref>, serverStreams: map<Id, Ref>)

  ghost predicate EntryOf(heap: seq<Pending>, p: Ref, id: Id, knocks: bool)
  {
    p < |heap| && heap[p].id == id && heap[p].knocks == knocks
  }

  /** Entries are added and never re-keyed. */
  ghost predicate Grows(h: seq<Pending>, h': seq<Pending>)
  {
    |h| <= |h'| && forall p :: 0 <= p < |h| ==> h'[p].id == h[p].id && h'[p].knocks == h[p].knocks
  }

  /** The slot holds only a message of its own id and of its own table's kind. */
  ghost predicate SlotOk(p: Pending)
  {
    p.ch.Some? ==> p.ch.value.serviceId == p.id && IsKnock(p.ch.value) == p.knocks
  }

  /** Every key leads to an entry made for it, and every slot is right. */
  ghost predicate TablesOk(t: Tables)
  {
    && (forall id :: id in t.clientStreams ==> EntryOf(t.heap, t.clientStreams[id], id, false))
    && (forall id :: id in t.serverStreams ==> EntryOf(t.heap, t.serverStreams[id], id, true))
    && (forall p :: 0 <= p < |t.heap| ==> SlotOk(t.heap[p]))
  }

  /** getClientStream (grpc_broker.go:634-648). */
  function GetClient(t: Tables, id: Id): (r: (Tables, Ref))
    ensures Grows(t.heap, r.0.heap)
    ensures TablesOk(t) ==> TablesOk(r.0) && EntryOf(r.0.heap, r.1, id, false)
  {
    if id in t.clientStreams then (t, t.clientStreams[id])
    else (Tables(t.heap + [Pending(id, false, None, false)], t.clientStreams[id := |t.heap|], t.serverStreams), |t.heap|)
  }

  /** getServerStream (grpc_broker.go:652-666). */
  function GetServer(t: Tables, id: Id): (r: (Tables, Ref))
    ensures Grows(t.heap, r.0.heap)
    ensures TablesOk(t) ==> TablesOk(r.0) && EntryOf(r.0.heap, r.1, id, true)
  {
    if id in t.serverStreams then (t, t.serverStreams[id])
    else (Tables(t.heap + [Pending(id, true, None, false)], t.clientStreams, t.serverStreams[id := |t.heap|]), |t.heap|)
  }

  /** A send into, or with None a receive from, an entry's slot. */
  function SetCh(t: Tables, p: Ref, ch: Option<ConnInfo>): (t': Tables)
    requires p < |t.heap|
    ensures Grows(t.heap, t'.heap)
    ensures TablesOk(t) && (ch.Some? ==> EntryOf(t.heap, p, ch.value.serviceId, IsKnock(ch.value))) ==> TablesOk(t')
  {
    t.(heap := t.heap[p := t.heap[p].(ch := ch)])
  }

  /** close(p.doneCh) */
  function SetDone(t: Tables, p: Ref): (t': Tables)
    requires p < |t.heap|
    ensures Grows(t.heap, t'.heap)
    ensures TablesOk(t) ==> TablesOk(t')
  {
    t.(heap := t.heap[p := t.heap[p].(done := true)])
  }

  function ForgetClient(t: Tables, id: Id): (t': Tables)
    ensures TablesOk(t) ==> TablesOk(t')
  {
    t.(clientStreams := t.clientStreams - {id})
  }

  function ForgetServer(t: Tables, id: Id): (t': Tables)
    ensures TablesOk(t) ==> TablesOk(t')
  {
    t.(serverStreams := t.serverStreams - {id})
  }

  predicate Filled(t: Tables, p: Ref)
  {
    p < |t.heap| && t.heap[p].ch.Some?
  }

  // ---------------------------------------------------------------- the goroutines

  /** Where the Run loop is. */
  datatype RunAt =
    | Receiving
    | Routing(msg: ConnInfo)
    | Queueing(msg: ConnInfo, p: Ref)
    | Spawning(id: Id, p: Ref)
    | Stopped

  /** A Dial in progress without multiplexing. */
  datatype DialAt =
    | DialWaiting(id: Id, p: Ref)
    | DialTook(id: Id, p: Ref, msg: ConnInfo)

  /** The muxDial that holds dialMutex. */
  datatype DialerAt =
    | Unlocked
    | Locked(id: Id)
    | Knocked(id: Id)
    | Awaiting(id: Id, p: Ref)
    | Admitted(id: Id)

  datatype ListenAt =
    | Starting
    | Waiting(p: Ref)
    | Opening(p: Ref)
    | Acking(p: Ref, error: string)
    | Refused
    | Exited

  /** A multiplexed Accept: the entry its Close will mark, and its listenForKnocks goroutine. */
  datatype Listener = Listener(id: Id, entry: Ref, at: ListenAt)

  function OpeningFor(id: Id): Listener -> bool
  {
    (l: Listener) => l.id == id && l.at.Opening?
  }

  function AckingFor(id: Id): Listener -> bool
  {
    (l: Listener) => l.id == id && l.at.Acking? && l.at.error == ""
  }

  /** runner.AddrTranslator; only the host has one. */
  datatype Translator = Translator(hostToPlugin: NetAddr -> Option<NetAddr>, pluginToHost: NetAddr -> Option<NetAddr>)

  /** What a broker advertises for a listener bound to `at` (grpc_broker.go:347-354). */
  function Advertised(translator: Option<Translator>, at: NetAddr): (r: Option<NetAddr>)
  {
    if translator.Some? then translator.value.hostToPlugin(at) else Some(at)
  }

  /** What a Dial connects to (grpc_broker.go:552-568), if it gets that far. */
  function DialTarget(translator: Option<Translator>, m: ConnInfo): (r: Option<NetAddr>)
  {
    var at := if translator.Some? then translator.value.pluginToHost((m.network, m.address))
              else Some((m.network, m.address));
    if at.Some? && at.value.0 in {"tcp", "unix"} then at else None
  }

  /** A successful Dial without multiplexing: the address it connects to, and the message it came in. */
  datatype Dialled = Dialled(id: Id, at: NetAddr, msg: ConnInfo)

  /** An Accept without multiplexing: the address its listener is bound to. */
  datatype Advert = Advert(id: Id, at: NetAddr)

  /** What has happened: messages in both directions; successful and refused AcceptKnock calls,
      successful knock calls, and the knocks and acks that went nowhere, by id. */
  datatype Log = Log(
    sent: seq<ConnInfo>,
    received: seq<ConnInfo>,
    doors: multiset<Id>,
    refused: multiset<Id>,
    admitted: multiset<Id>,
    knockDrops: multiset<Id>,
    ackDrops: multiset<Id>,
    ackFails: multiset<Id>,
    dialled: seq<Dialled>,
    adverts: seq<Advert>)

  datatype State = State(
    mux: bool,
    translator: Option<Translator>,
    tables: Tables,
    run: RunAt,
    reapers: multiset<(Id, Ref)>,
    dials: multiset<DialAt>,
    dialer: DialerAt,
    listeners: seq<Listener>,
    log: Log,
    panicked: bool)

  function Init(mux: bool, translator: Option<Translator>): (s: State)
  {
    State(mux, translator, Tables([], map[], map[]), Receiving, multiset{}, multiset{}, Unlocked, [],
          Log([], [], multiset{}, multiset{}, multiset{}, multiset{}, multiset{}, multiset{}, [], []), false)
  }

  /** The multiset of `id` once if `b`, and empty otherwise. */
  function One(b: bool, id: Id): (r: multiset<Id>)
    ensures forall k: Id :: r[k] == Bit(b && k == id)
  {
    if b then multiset{id} else multiset{}
  }

  // ---------------------------------------------------------------- Run and timeoutWait

  datatype RunEvent = Recv(msg: ConnInfo) | RecvFails | Route | Queue | Spawn | Reap(id: Id, p: Ref)

  predicate RunEnabled(s: State, e: RunEvent)
  {
    match e
    case Recv(_) => s.run.Receiving?
    case RecvFails => s.run.Receiving?
    case Route => s.run.Routing?
    case Queue => s.run.Queueing? && s.run.p < |s.tables.heap|
    case Spawn => s.run.Spawning?
    case Reap(id, p) => (id, p) in s.reapers
  }

  /** The non-blocking send of Run's select (grpc_broker.go:612-628). */
  function QueueStep(s: State): State
    requires RunEnabled(s, Queue)
  {
    var m, p := s.run.msg, s.run.p;
    if s.tables.heap[p].ch.None? then
      s.(tables := SetCh(s.tables, p, Some(m)),
         run := if IsKnock(m) then Receiving else Spawning(m.serviceId, p))
    else
      s.(run := Receiving,
         log := s.log.(knockDrops := s.log.knockDrops + One(IsKnock(m), m.serviceId),
                       ackDrops := s.log.ackDrops + One(IsAdmission(m), m.serviceId)))
  }

  function RunNext(s: State, e: RunEvent): State
    requires RunEnabled(s, e)
  {
    match e
    case Recv(m) => s.(run := Routing(m), log := s.log.(received := s.log.received + [m]))
    case RecvFails => s.(run := Stopped)
    case Route =>
      var m := s.run.msg;
      var (t, p) := if IsKnock(m) then GetServer(s.tables, m.serviceId) else GetClient(s.tables, m.serviceId);
      s.(tables := t, run := Queueing(m, p))
    case Queue => QueueStep(s)
    case Spawn => s.(run := Receiving, reapers := s.reapers + multiset{(s.run.id, s.run.p)})
    case Reap(id, p) =>
      s.(reapers := s.reapers - multiset{(id, p)}, tables := ForgetClient(s.tables, id))
  }

  // ---------------------------------------------------------------- Dial and Accept without multiplexing

  datatype DialEvent =
    | DialStart(id: Id)
    | DialTake(id: Id, p: Ref)
    | DialFinish(id: Id, p: Ref, msg: ConnInfo)
    | DialTimeout(id: Id, p: Ref)
    | AcceptAddr(id: Id, at: NetAddr, ok: bool)

  predicate DialEnabled(s: State, e: DialEvent)
  {
    !s.mux &&
    match e
    case DialStart(_) => true
    case DialTake(id, p) => DialWaiting(id, p) in s.dials && Filled(s.tables, p)
    case DialFinish(id, p, msg) => DialTook(id, p, msg) in s.dials && p < |s.tables.heap|
    case DialTimeout(id, p) => DialWaiting(id, p) in s.dials
    case AcceptAddr(_, _, _) => true
  }

  /** Dial after its receive: close doneCh (a second close panics), then use the address. */
  function DialFinishStep(s: State, id: Id, p: Ref, msg: ConnInfo): State
    requires DialEnabled(s, DialFinish(id, p, msg))
  {
    if s.tables.heap[p].done then s.(panicked := true)
    else
      var target := DialTarget(s.translator, msg);
      s.(tables := SetDone(s.tables, p),
         dials := s.dials - multiset{DialTook(id, p, msg)},
         log := s.log.(dialled := if target.Some? then s.log.dialled + [Dialled(id, target.value, msg)] else s.log.dialled))
  }

  function AcceptAddrStep(s: State, id: Id, at: NetAddr, ok: bool): State
  {
    var to := Advertised(s.translator, at);
    if to.Some? && ok then
      s.(log := s.log.(sent := s.log.sent + [AddrMsg(id, to.value)], adverts := s.log.adverts + [Advert(id, at)]))
    else s
  }

  function DialNext(s: State, e: DialEvent): State
    requires DialEnabled(s, e)
  {
    match e
    case DialStart(id) =>
      var (t, p) := GetClient(s.tables, id);
      s.(tables := t, dials := s.dials + multiset{DialWaiting(id, p)})
    case DialTake(id, p) =>
      var m := s.tables.heap[p].ch.value;
      s.(tables := SetCh(s.tables, p, None),
         dials := s.dials - multiset{DialWaiting(id, p)} + multiset{DialTook(id, p, m)},
         log := s.log.(ackDrops := s.log.ackDrops + One(IsAdmission(m), m.serviceId)))
    case DialFinish(id, p, m) => DialFinishStep(s, id, p, m)
    case DialTimeout(id, p) =>
      s.(dials := s.dials - multiset{DialWaiting(id, p)}, tables := ForgetClient(s.tables, id))
    case AcceptAddr(id, at, ok) => AcceptAddrStep(s, id, at, ok)
  }

  // ---------------------------------------------------------------- muxDial and knock

  datatype KnockEvent =
    | Lock(id: Id)
    | SendKnock(ok: bool)
    | AwaitAck
    | TakeAck
    | KnockTimeout
    | OpenStream(ok: bool)

  predicate KnockEnabled(s: State, e: KnockEvent)
  {
    s.mux &&
    match e
    case Lock(_) => s.dialer.Unlocked?
    case SendKnock(_) => s.dialer.Locked?
    case AwaitAck => s.dialer.Knocked?
    case TakeAck => s.dialer.Awaiting? && Filled(s.tables, s.dialer.p)
    case KnockTimeout => s.dialer.Awaiting?
    case OpenStream(_) => s.dialer.Admitted?
  }

  /** knock's receive and its three checks (grpc_broker.go:483-492). */
  function TakeAckStep(s: State): State
    requires KnockEnabled(s, TakeAck)
  {
    var id, p := s.dialer.id, s.dialer.p;
    var m := s.tables.heap[p].ch.value;
    if m.serviceId == id && IsAdmission(m) then
      s.(tables := SetCh(s.tables, p, None), dialer := Admitted(id),
         log := s.log.(admitted := s.log.admitted + One(true, id)))
    else
      s.(tables := SetCh(s.tables, p, None), dialer := Unlocked)
  }

  function KnockNext(s: State, e: KnockEvent): State
    requires KnockEnabled(s, e)
  {
    match e
    case Lock(id) => s.(dialer := Locked(id))
    case SendKnock(ok) =>
      if ok then s.(dialer := Knocked(s.dialer.id), log := s.log.(sent := s.log.sent + [KnockMsg(s.dialer.id)]))
      else s.(dialer := Unlocked)
    case AwaitAck =>
      var (t, p) := GetClient(s.tables, s.dialer.id);
      s.(tables := t, dialer := Awaiting(s.dialer.id, p))
    case TakeAck => TakeAckStep(s)
    case KnockTimeout => s.(dialer := Unlocked, tables := ForgetClient(s.tables, s.dialer.id))
    case OpenStream(_) => s.(dialer := Unlocked)
  }

  // ---------------------------------------------------------------- Accept with multiplexing, listenForKnocks

  datatype ListenEvent =
    | AcceptMux(id: Id)
    | ListenStart(i: nat)
    | ListenTake(i: nat)
    | OpenDoor(i: nat, error: string)
    | SendAck(i: nat, ok: bool)
    | ListenDone(i: nat)
    | CloseDoor(i: nat)
    | Forget(i: nat)

  predicate ListenEnabled(s: State, e: ListenEvent)
  {
    s.mux && (e.AcceptMux? || e.i < |s.listeners|) &&
    match e
    case AcceptMux(_) => true
    case ListenStart(i) => s.listeners[i].at.Starting?
    case ListenTake(i) => s.listeners[i].at.Waiting? && Filled(s.tables, s.listeners[i].at.p)
    case OpenDoor(i, _) => s.listeners[i].at.Opening?
    case SendAck(i, _) => s.listeners[i].at.Acking?
    case ListenDone(i) =>
      s.listeners[i].at.Waiting? && s.listeners[i].at.p < |s.tables.heap| && s.tables.heap[s.listeners[i].at.p].done
    case CloseDoor(i) => s.listeners[i].entry < |s.tables.heap|
    case Forget(i) => s.listeners[i].entry < |s.tables.heap| && s.tables.heap[s.listeners[i].entry].done
  }

  function SetListener(s: State, i: nat, at: ListenAt): State
    requires i < |s.listeners|
  {
    s.(listeners := s.listeners[i := s.listeners[i].(at := at)])
  }

  function ListenNext(s: State, e: ListenEvent): State
    requires ListenEnabled(s, e)
  {
    match e
    case AcceptMux(id) =>
      var (t, p) := GetServer(s.tables, id);
      s.(tables := t, listeners := s.listeners + [Listener(id, p, Starting)])
    case ListenStart(i) =>
      var (t, p) := GetServer(s.tables, s.listeners[i].id);
      SetListener(s, i, Waiting(p)).(tables := t)
    case ListenTake(i) =>
      // the two "shouldn't be possible" checks lead to Refused (grpc_broker.go:433-441)
      var l := s.listeners[i];
      var m := s.tables.heap[l.at.p].ch.value;
      var at := if m.serviceId == l.id && IsKnock(m) then Opening(l.at.p) else Refused;
      SetListener(s, i, at).(tables := SetCh(s.tables, l.at.p, None))
    case OpenDoor(i, error) =>
      var l := s.listeners[i];
      SetListener(s, i, Acking(l.at.p, error)).(
        log := s.log.(doors := s.log.doors + One(error == "", l.id),
                      refused := s.log.refused + One(error != "", l.id)))
    case SendAck(i, ok) =>
      var l := s.listeners[i];
      if ok then
        SetListener(s, i, Waiting(l.at.p)).(log := s.log.(sent := s.log.sent + [AckMsg(l.id, l.at.error)]))
      else
        SetListener(s, i, Exited).(log := s.log.(ackFails := s.log.ackFails + One(l.at.error == "", l.id)))
    case ListenDone(i) => SetListener(s, i, Exited)
    case CloseDoor(i) => s.(tables := SetDone(s.tables, s.listeners[i].entry))
    case Forget(i) => s.(tables := ForgetServer(s.tables, s.listeners[i].id))
  }

  // ---------------------------------------------------------------- interleavings

  datatype Event = OfRun(r: RunEvent) | OfDial(d: DialEvent) | OfKnock(k: KnockEvent) | OfListen(l: ListenEvent)

  predicate Enabled(s: State, e: Event)
  {
    !s.panicked &&
    match e
    case OfRun(r) => RunEnabled(s, r)
    case OfDial(d) => DialEnabled(s, d)
    case OfKnock(k) => KnockEnabled(s, k)
    case OfListen(l) => ListenEnabled(s, l)
  }

  function Next(s: State, e: Event): (s': State)
    requires Enabled(s, e)
  {
    match e
    case OfRun(r) => RunNext(s, r)
    case OfDial(d) => DialNext(s, d)
    case OfKnock(k) => KnockNext(s, k)
    case OfListen(l) => ListenNext(s, l)
  }

  /** `es` is an interleaving that can happen from `s`. */
  predicate Runs(s: State, es: seq<Event>)
    decreases es
  {
    es == [] || (Enabled(s, es[0]) && Runs(Next(s, es[0]), es[1..]))
  }

  function After(s: State, es: seq<Event>): State
    requires Runs(s, es)
    decreases es
  {
    if es == [] then s else After(Next(s, es[0]), es[1..])
  }

  /** Some interleaving leads from `s` to `t`. */
  ghost predicate Reaches(s: State, t: State)
  {
    exists es :: Runs(s, es) && After(s, es) == t
  }

  lemma {:induction false} RunsAppend(s: State, es: seq<Event>, e: Event)
    requires Runs(s, es) && Enabled(After(s, es), e)
    ensures Runs(s, es + [e]) && After(s, es + [e]) == Next(After(s, es), e)
    decreases es
  {
    if es == [] {
      assert [e][1..] == [];
      assert es + [e] == [e];
    } else {
      assert (es + [e])[1..] == es[1..] + [e];
      RunsAppend(Next(s, es[0]), es[1..], e);
    }
  }

  /** One step before a run. */
  lemma {:induction false} RunsPrepend(s: State, e: Event, es: seq<Event>)
    requires Enabled(s, e) && Runs(Next(s, e), es)
    ensures Runs(s, [e] + es) && After(s, [e] + es) == After(Next(s, e), es)
  {
    assert ([e] + es)[1..] == es;
  }

  /** One more step of a run. */
  lemma {:induction false} Extend(s: State, t: State, e: Event) returns (u: State)
    requires Reaches(s, t) && Enabled(t, e)
    ensures u == Next(t, e) && Reaches(s, u)
  {
    u := Next(t, e);
    var es :| Runs(s, es) && After(s, es) == t;
    RunsAppend(s, es, e);
  }

  lemma ReachesSelf(s: State)
    ensures Reaches(s, s)
  {
    assert Runs(s, []) && After(s, []) == s;
  }
}
