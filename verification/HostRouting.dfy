/**
 The multiplexed broker with the host listening: the plugin's broker dials, the host's broker
 listens, and GRPCClientMuxer (internal/grpcmux/grpc_client_muxer.go) gives each listener a
 one-slot channel of tokens.  Accept takes a token and then whatever stream comes next
 (internal/grpcmux/blocked_client_listener.go).
*/
module HostRouting {
  import opened Basics
  import opened Broker
  import opened BrokerSafety
  import opened BrokerPair

  /** blockedClientListener: the id it was made for and whether waitCh holds a token. */
  datatype Gate = Gate(id: Id, token: bool)

  /** An Accept that returned: the id the stream was opened for and the id it was accepted on. */
  datatype Accepted = Accepted(stream: Id, on: Id)

  /** `acceptListeners` names the newest gate of each id; `popping` are the Accepts that have a
      token and no stream yet.  `accepted`, `failed` and `last` (the latest knock) are histories. */
  datatype System = System(
    host: State,
    plugin: State,
    queue: seq<Id>,
    gates: seq<Gate>,
    acceptListeners: map<Id, nat>,
    popping: multiset<Id>,
    accepted: seq<Accepted>,
    failed: multiset<Id>,
    last: Option<Id>)

  function Start(tr: Option<Translator>): System
  {
    System(Init(true, tr), Init(true, None), [], [], map[], multiset{}, [], multiset{}, None)
  }

  datatype Step =
    | HostStep(e: Event)
    | PluginStep(e: Event)
    | Register(id: Id)
    | TakeToken(g: nat)
    | PopStream(id: Id)

  /** AcceptKnock fails exactly when the id has no listener, and otherwise blocks until the
      listener's slot is free (grpc_client_muxer.go:82-92). */
  predicate AcceptKnockReturns(s: System, id: Id, error: string)
  {
    if id !in s.acceptListeners then error != ""
    else error == "" && s.acceptListeners[id] < |s.gates| && !s.gates[s.acceptListeners[id]].token
  }

  predicate OpensDoor(s: System, e: Event)
  {
    e.OfListen? && e.l.OpenDoor? && e.l.i < |s.host.listeners|
  }

  predicate CanStep(s: System, st: Step)
  {
    match st
    case HostStep(e) =>
      && Enabled(s.host, e) && InOrder(s.host, s.plugin, e)
      && (OpensDoor(s, e) ==> AcceptKnockReturns(s, s.host.listeners[e.l.i].id, e.l.error))
    case PluginStep(e) => Enabled(s.plugin, e) && InOrder(s.plugin, s.host, e)
    case Register(_) => true
    case TakeToken(g) => g < |s.gates| && s.gates[g].token
    case PopStream(id) => id in s.popping && s.queue != []
  }

  function SetToken(s: System, g: nat, token: bool): System
    requires g < |s.gates|
  {
    s.(gates := s.gates[g := s.gates[g].(token := token)])
  }

  function Advance(s: System, st: Step): System
    requires CanStep(s, st)
  {
    match st
    case HostStep(e) =>
      var s1 := s.(host := Next(s.host, e));
      if OpensDoor(s, e) && e.l.error == "" then SetToken(s1, s.acceptListeners[s.host.listeners[e.l.i].id], true) else s1
    case PluginStep(e) =>
      var s1 := s.(plugin := Next(s.plugin, e));
      if !e.OfKnock? then s1
      else if e.k == SendKnock(true) then s1.(last := Some(s.plugin.dialer.id))
      else if e.k == OpenStream(true) then s1.(queue := s.queue + [s.plugin.dialer.id])
      else if e.k == OpenStream(false) then s1.(failed := s.failed + One(true, s.plugin.dialer.id))
      else s1
    case Register(id) => s.(gates := s.gates + [Gate(id, false)], acceptListeners := s.acceptListeners[id := |s.gates|])
    case TakeToken(g) => SetToken(s, g, false).(popping := s.popping + One(true, s.gates[g].id))
    case PopStream(id) =>
      s.(popping := s.popping - One(true, id), queue := s.queue[1..],
         accepted := s.accepted + [Accepted(s.queue[0], id)])
  }

  predicate Legal(s: System, sts: seq<Step>)
    decreases sts
  {
    sts == [] || (CanStep(s, sts[0]) && Legal(Advance(s, sts[0]), sts[1..]))
  }

  function Final(s: System, sts: seq<Step>): System
    requires Legal(s, sts)
    decreases sts
  {
    if sts == [] then s else Final(Advance(s, sts[0]), sts[1..])
  }

  function TokenFor(id: Id): Gate -> bool
  {
    (g: Gate) => g.id == id && g.token
  }

  function StreamFor(id: Id): Id -> bool
  {
    (x: Id) => x == id
  }

  function Opened(id: Id): Accepted -> bool
  {
    (a: Accepted) => a.stream == id
  }

  function AcceptedOn(id: Id): Accepted -> bool
  {
    (a: Accepted) => a.on == id
  }

  /** The knocks for `id` that were refused, dropped, or have had their stream accepted. */
  ghost function Over(s: System, id: Id): nat
  {
    CountIf(s.accepted, Opened(id)) + s.host.log.refused[id] + s.host.log.knockDrops[id]
  }

  ghost predicate Settled(s: System, id: Id)
  {
    CountIf(s.plugin.log.sent, KnockFor(id)) == Over(s, id)
  }

  /** A knock is sent only once every knock for another id is settled. */
  ghost predicate InTurn(s: System, st: Step)
  {
    st == PluginStep(OfKnock(SendKnock(true))) ==>
      forall id: Id :: s.plugin.dialer.Locked? && id != s.plugin.dialer.id ==> Settled(s, id)
  }

  ghost predicate Sequential(s: System, sts: seq<Step>)
    requires Legal(s, sts)
    decreases sts
  {
    sts == [] || (InTurn(s, sts[0]) && Sequential(Advance(s, sts[0]), sts[1..]))
  }

  // ---------------------------------------------------------------- accounts that hold in every run

  /** Every token issued for `id` is waiting, in an Accept's hand, or spent; every stream opened
      for `id` is queued or accepted. */
  ghost predicate Accounts(s: System, id: Id)
  {
    && s.host.log.doors[id] ==
         CountIf(s.gates, TokenFor(id)) + s.popping[id] + CountIf(s.accepted, AcceptedOn(id))
    && s.plugin.log.admitted[id] ==
         Bit(s.plugin.dialer == Admitted(id)) + CountIf(s.queue, StreamFor(id)) + s.failed[id] +
         CountIf(s.accepted, Opened(id))
  }

  ghost predicate GatesOk(s: System)
  {
    forall id :: id in s.acceptListeners ==>
      s.acceptListeners[id] < |s.gates| && s.gates[s.acceptListeners[id]].id == id
  }

  ghost predicate Brokers(s: System)
  {
    Safe(s.host) && Safe(s.plugin) && s.host.mux && s.plugin.mux && Linked(s.plugin, s.host)
  }

  lemma {:induction false} BrokersHost(s: System, e: Event)
    requires Brokers(s) && CanStep(s, HostStep(e))
    ensures Brokers(Advance(s, HostStep(e)))
  {
    SafeStep(s.host, e);
    ModeStays(s.host, e);
    LinkedStep(s.host, s.plugin, e);
  }

  lemma {:induction false} PluginAdvances(s: System, e: Event)
    requires CanStep(s, PluginStep(e))
    ensures Advance(s, PluginStep(e)).plugin == Next(s.plugin, e) && Advance(s, PluginStep(e)).host == s.host
  {
  }

  lemma {:induction false} BrokersPlugin(s: System, e: Event)
    requires Brokers(s) && CanStep(s, PluginStep(e))
    ensures Brokers(Advance(s, PluginStep(e)))
  {
    PluginAdvances(s, e);
    SafeStep(s.plugin, e);
    ModeStays(s.plugin, e);
    LinkedStep(s.plugin, s.host, e);
  }

  lemma {:induction false} BrokersStep(s: System, st: Step)
    requires Brokers(s) && CanStep(s, st)
    ensures Brokers(Advance(s, st))
  {
    match st
    case HostStep(e) => BrokersHost(s, e);
    case PluginStep(e) => BrokersPlugin(s, e);
    case _ =>
  }

  lemma {:induction false} HostAccounts(s: System, e: Event, id: Id)
    requires Accounts(s, id) && GatesOk(s) && CanStep(s, HostStep(e))
    ensures Accounts(Advance(s, HostStep(e)), id)
  {
    Frame(s.host, e, id);
    if OpensDoor(s, e) && e.l.error == "" {
      var g := s.acceptListeners[s.host.listeners[e.l.i].id];
      CountUpdate(s.gates, g, s.gates[g].(token := true), TokenFor(id));
    }
  }

  lemma {:induction false} PluginAccounts(s: System, e: Event, id: Id)
    requires Accounts(s, id) && CanStep(s, PluginStep(e))
    ensures Accounts(Advance(s, PluginStep(e)), id)
  {
    Frame(s.plugin, e, id);
    if e == OfKnock(OpenStream(true)) {
      CountAppend(s.queue, s.plugin.dialer.id, StreamFor(id));
    }
  }

  lemma {:induction false} GateAccounts(s: System, st: Step, id: Id)
    requires Accounts(s, id) && CanStep(s, st) && !st.HostStep? && !st.PluginStep?
    ensures Accounts(Advance(s, st), id)
  {
    match st
    case Register(key) => CountAppend(s.gates, Gate(key, false), TokenFor(id));
    case TakeToken(g) => CountUpdate(s.gates, g, s.gates[g].(token := false), TokenFor(id));
    case PopStream(key) =>
      var a := Accepted(s.queue[0], key);
      assert s.queue == [s.queue[0]] + s.queue[1..];
      CountPrepend(s.queue[0], s.queue[1..], StreamFor(id));
      CountAppend(s.accepted, a, AcceptedOn(id));
      CountAppend(s.accepted, a, Opened(id));
  }

  lemma {:induction false} AccountsStep(s: System, st: Step, id: Id)
    requires Accounts(s, id) && GatesOk(s) && CanStep(s, st)
    ensures Accounts(Advance(s, st), id)
  {
    match st
    case HostStep(e) => HostAccounts(s, e, id);
    case PluginStep(e) => PluginAccounts(s, e, id);
    case _ => GateAccounts(s, st, id);
  }

  // ---------------------------------------------------------------- one id at a time

  /** Every Accept got its own stream, and only knocks for the latest id are unsettled. */
  ghost predicate Matched(s: System)
  {
    && (forall a :: a in s.accepted ==> a.stream == a.on)
    && (forall id: Id :: OnlyLast(s, id))
  }

  ghost predicate OnlyLast(s: System, id: Id)
  {
    s.last == Some(id) ||
    CountIf(s.plugin.log.sent, KnockFor(id)) <= Over(s, id)
  }

  ghost predicate Invariant(s: System)
  {
    Brokers(s) && GatesOk(s) && (forall id: Id :: Accounts(s, id)) && Matched(s)
  }

  /** Only the id of the latest knock can have a token or a stream outstanding. */
  lemma {:induction false} OutstandingIsLast(s: System, id: Id)
    requires Invariant(s)
    requires s.popping[id] > 0 || CountIf(s.queue, StreamFor(id)) > 0
    ensures s.last == Some(id)
  {
    assert Accounts(s, id) && OnlyLast(s, id) && Balanced(s.host, id) && Balanced(s.plugin, id);
    CountSame(s.accepted, Opened(id), AcceptedOn(id));
    DoorsBetween(s.plugin, s.host, id);
    CountPrefix(s.host.log.received, s.plugin.log.sent, KnockFor(id));
  }

  lemma {:induction false} LastStep(s: System, st: Step, id: Id)
    requires OnlyLast(s, id) && CanStep(s, st) && InTurn(s, st)
    ensures OnlyLast(Advance(s, st), id)
  {
    match st
    case HostStep(e) => LogGrows(s.host, e, id);
    case PluginStep(e) =>
      if e == OfKnock(SendKnock(true)) {
        assert id != s.plugin.dialer.id ==> Settled(s, id);
        CountAppend(s.plugin.log.sent, KnockMsg(s.plugin.dialer.id), KnockFor(id));
      } else {
        KnocksStay(s.plugin, e, id);
      }
    case PopStream(key) => CountAppend(s.accepted, Accepted(s.queue[0], key), Opened(id));
    case _ =>
  }

  lemma {:induction false} GatesStep(s: System, st: Step)
    requires GatesOk(s) && CanStep(s, st)
    ensures GatesOk(Advance(s, st))
  {
  }

  lemma {:induction false} AcceptedStep(s: System, st: Step)
    requires Invariant(s) && CanStep(s, st)
    ensures forall a :: a in Advance(s, st).accepted ==> a.stream == a.on
  {
    if st.PopStream? {
      assert StreamFor(s.queue[0])(s.queue[0]);
      CountMember(s.queue, 0, StreamFor(s.queue[0]));
      OutstandingIsLast(s, s.queue[0]);
      OutstandingIsLast(s, st.id);
    }
  }

  lemma {:induction false} InvariantStep(s: System, st: Step)
    requires Invariant(s) && CanStep(s, st) && InTurn(s, st)
    ensures Invariant(Advance(s, st))
  {
    BrokersStep(s, st);
    GatesStep(s, st);
    AcceptedStep(s, st);
    forall id: Id ensures Accounts(Advance(s, st), id) { AccountsStep(s, st, id); }
    forall id: Id ensures OnlyLast(Advance(s, st), id) { LastStep(s, st, id); }
  }

  lemma InvariantStart(tr: Option<Translator>)
    ensures Invariant(Start(tr))
  {
    SafeInit(true, tr);
    SafeInit(true, None);
  }

  lemma {:induction false} InvariantRun(s: System, sts: seq<Step>)
    requires Invariant(s) && Legal(s, sts) && Sequential(s, sts)
    ensures Invariant(Final(s, sts))
    decreases sts
  {
    if sts != [] {
      InvariantStep(s, sts[0]);
      InvariantRun(Advance(s, sts[0]), sts[1..]);
    }
  }

  /** In every interleaving in which a knock waits until the knocks for other ids are settled, with any
      number of listeners accepting at once: every accepted stream was opened for the id it was accepted
      on, and every queued one has a token or an Accept with a token of its own id. */
  lemma {:induction false} SequentialStreamsReachTheirListener(tr: Option<Translator>, sts: seq<Step>)
    requires Legal(Start(tr), sts) && Sequential(Start(tr), sts)
    ensures forall a :: a in Final(Start(tr), sts).accepted ==> a.stream == a.on
    ensures forall id: Id :: Expected(Final(Start(tr), sts), id)
  {
    InvariantStart(tr);
    InvariantRun(Start(tr), sts);
    forall id: Id ensures Expected(Final(Start(tr), sts), id) { QueuedIsExpected(Final(Start(tr), sts), id); }
  }

  ghost predicate Expected(s: System, id: Id)
  {
    CountIf(s.queue, StreamFor(id)) <= CountIf(s.gates, TokenFor(id)) + s.popping[id]
  }

  lemma {:induction false} QueuedIsExpected(s: System, id: Id)
    requires Invariant(s)
    ensures Expected(s, id)
  {
    assert Accounts(s, id) && Balanced(s.host, id) && Balanced(s.plugin, id);
    CountSame(s.accepted, Opened(id), AcceptedOn(id));
    DoorsBetween(s.plugin, s.host, id);
  }

  // ---------------------------------------------------------------- when a stream goes astray

  /** An Accept of another id has a token, or can take one. */
  ghost predicate Rival(s: System, b: Id)
  {
    b in s.popping || exists g :: 0 <= g < |s.gates| && s.gates[g] == Gate(b, true)
  }

  /** The next stream is handed over, by the steps of one Accept, to a listener it was not opened for. */
  ghost predicate GoesAstray(s: System, sts: seq<Step>)
  {
    && 1 <= |sts| <= 2 && sts[|sts| - 1].PopStream? && (|sts| == 2 ==> sts[0].TakeToken?)
    && Legal(s, sts) && s.queue != []
    && exists b :: b != s.queue[0] && Final(s, sts).accepted == s.accepted + [Accepted(s.queue[0], b)]
  }

  /** At every state that can happen next if and only if a rival of the queue's head exists. */
  lemma {:induction false} AstrayExactlyWithARival(s: System)
    requires s.queue != []
    ensures (exists sts :: GoesAstray(s, sts)) <==> (exists b :: b != s.queue[0] && Rival(s, b))
  {
    if b :| b != s.queue[0] && Rival(s, b) {
      RivalTakes(s, b);
    }
    if sts :| GoesAstray(s, sts) {
      AstrayHasRival(s, sts);
    }
  }

  lemma {:induction false} OneStep(s: System, st: Step)
    requires Legal(s, [st])
    ensures CanStep(s, st) && Final(s, [st]) == Advance(s, st)
  {
    assert [st][1..] == [] && Final(Advance(s, st), []) == Advance(s, st);
  }

  lemma {:induction false} TwoSteps(s: System, st: Step, next: Step)
    requires Legal(s, [st, next])
    ensures CanStep(s, st) && CanStep(Advance(s, st), next)
    ensures Final(s, [st, next]) == Advance(Advance(s, st), next)
  {
    assert [st, next][1..] == [next];
    OneStep(Advance(s, st), next);
  }

  lemma {:induction false} RivalTakes(s: System, b: Id)
    requires s.queue != [] && b != s.queue[0] && Rival(s, b)
    ensures exists sts :: GoesAstray(s, sts)
  {
    var pop := [PopStream(b)];
    assert pop[1..] == [];
    if b in s.popping {
      OneStep(s, pop[0]);
      assert GoesAstray(s, pop);
    } else {
      var g :| 0 <= g < |s.gates| && s.gates[g] == Gate(b, true);
      assert [TakeToken(g), pop[0]][1..] == pop;
      TwoSteps(s, TakeToken(g), pop[0]);
      assert GoesAstray(s, [TakeToken(g), pop[0]]);
    }
  }

  lemma {:induction false} AstrayHasRival(s: System, sts: seq<Step>)
    requires GoesAstray(s, sts)
    ensures exists b :: b != s.queue[0] && Rival(s, b)
  {
    var b :| b != s.queue[0] && Final(s, sts).accepted == s.accepted + [Accepted(s.queue[0], b)];
    var last := Final(s, sts).accepted[|s.accepted|];
    if |sts| == 1 {
      assert sts == [sts[0]];
      OneStep(s, sts[0]);
      assert last.on == sts[0].id && Rival(s, b);
    } else {
      assert sts == [sts[0], sts[1]];
      TwoSteps(s, sts[0], sts[1]);
      assert last.on == sts[1].id && Rival(s, b);
    }
  }

  // ---------------------------------------------------------------- the documented rule is not enough

  /** Every listener so far has been dialled. */
  ghost predicate AllDialled(s: System)
  {
    forall i :: 0 <= i < |s.host.listeners| ==>
      s.host.listeners[i].id in s.queue || CountIf(s.accepted, Opened(s.host.listeners[i].id)) > 0
  }

  /** The rule of client.go:292-294: after one AcceptAndServe, wait for the other side to Dial before the next. */
  ghost predicate Waits(s: System, st: Step)
  {
    st.HostStep? && st.e.OfListen? && st.e.l.AcceptMux? ==> AllDialled(s)
  }

  ghost predicate Documented(s: System, sts: seq<Step>)
    requires Legal(s, sts)
    decreases sts
  {
    sts == [] || (Waits(s, sts[0]) && Documented(Advance(s, sts[0]), sts[1..]))
  }

  /** Some run that keeps the documented rule leads from `s` to `t`. */
  ghost predicate Reaches(s: System, t: System)
  {
    exists sts :: Legal(s, sts) && Documented(s, sts) && Final(s, sts) == t
  }

  lemma {:induction false} LegalAppend(s: System, sts: seq<Step>, st: Step)
    requires Legal(s, sts) && Documented(s, sts) && CanStep(Final(s, sts), st) && Waits(Final(s, sts), st)
    ensures Legal(s, sts + [st]) && Documented(s, sts + [st]) && Final(s, sts + [st]) == Advance(Final(s, sts), st)
    decreases sts
  {
    if sts == [] {
      assert [st][1..] == [] && sts + [st] == [st];
    } else {
      assert (sts + [st])[1..] == sts[1..] + [st];
      LegalAppend(Advance(s, sts[0]), sts[1..], st);
    }
  }

  lemma {:induction false} Extend(s: System, t: System, st: Step) returns (u: System)
    requires Reaches(s, t) && CanStep(t, st) && Waits(t, st)
    ensures u == Advance(t, st) && Reaches(s, u)
  {
    u := Advance(t, st);
    var sts :| Legal(s, sts) && Documented(s, sts) && Final(s, sts) == t;
    LegalAppend(s, sts, st);
  }

  /** Both brokers are idle with nothing on the wire. */
  ghost predicate Idle(s: System)
  {
    && s.plugin.mux && !s.plugin.panicked && s.plugin.run.Receiving? && s.plugin.dialer.Unlocked?
    && s.host.mux && !s.host.panicked && s.host.run.Receiving?
    && s.host.log.received == s.plugin.log.sent && s.plugin.log.received == s.host.log.sent
  }

  /** Listener `k` of the host waits for knocks for `id`, its gate `g` is closed. */
  ghost predicate Ready(s: System, id: Id, k: nat, g: nat)
  {
    && k < |s.host.listeners| && s.host.listeners[k].id == id && s.host.listeners[k].at.Waiting?
    && id in s.host.tables.serverStreams && s.host.tables.serverStreams[id] == s.host.listeners[k].at.p
    && s.host.listeners[k].at.p < |s.host.tables.heap| && s.host.tables.heap[s.host.listeners[k].at.p].ch.None?
    && id in s.acceptListeners && s.acceptListeners[id] == g < |s.gates| && s.gates[g] == Gate(id, false)
  }

  /** A new listener on the host, up to its gate. */
  lemma {:induction false} Await(z: System, s: System, id: Id) returns (t: System)
    requires Reaches(z, s) && s.host.mux && !s.host.panicked && id !in s.host.tables.serverStreams && AllDialled(s)
    ensures Reaches(z, t) && t == s.(host := t.host)
    ensures var h := s.host; var p := |h.tables.heap|;
            t.host == h.(tables := Tables(h.tables.heap + [Pending(id, true, None, false)], h.tables.clientStreams,
                                          h.tables.serverStreams[id := p]),
                         listeners := h.listeners + [Listener(id, p, Waiting(p))])
  {
    t := Extend(z, s, HostStep(OfListen(AcceptMux(id))));
    t := Extend(z, t, HostStep(OfListen(ListenStart(|s.host.listeners|))));
  }

  lemma {:induction false} Listen(z: System, s: System, id: Id) returns (t: System)
    requires Reaches(z, s) && Idle(s) && id !in s.host.tables.serverStreams && AllDialled(s)
    ensures Reaches(z, t) && Idle(t) && Ready(t, id, |s.host.listeners|, |s.gates|)
    ensures t.plugin == s.plugin && t.queue == s.queue && t.popping == s.popping && t.accepted == s.accepted
    ensures t.host.tables.serverStreams.Keys == s.host.tables.serverStreams.Keys + {id}
    ensures |t.host.listeners| == |s.host.listeners| + 1 && t.gates == s.gates + [Gate(id, false)]
    ensures forall id', k, g :: id' != id && Ready(s, id', k, g) ==> Ready(t, id', k, g)
  {
    t := Await(z, s, id);
    t := Extend(z, t, Register(id));
  }

  /** A knock on the wire reaches the slot its listener reads. */
  lemma {:induction false} Deliver(z: System, s: System, id: Id, k: nat, g: nat) returns (t: System)
    requires Reaches(z, s) && Ready(s, id, k, g)
    requires s.host.mux && !s.host.panicked && s.host.run.Receiving?
    requires s.plugin.log.sent == s.host.log.received + [KnockMsg(id)]
    ensures Reaches(z, t)
    ensures t == s.(host := s.host.(tables := SetCh(s.host.tables, s.host.listeners[k].at.p, Some(KnockMsg(id))),
                                    log := s.host.log.(received := s.plugin.log.sent)))
  {
    t := Extend(z, s, HostStep(OfRun(Recv(KnockMsg(id)))));
    t := Extend(z, t, HostStep(OfRun(Route)));
    t := Extend(z, t, HostStep(OfRun(Queue)));
  }

  lemma {:induction false} SetChUndo(t: Tables, p: Ref, m: ConnInfo)
    requires p < |t.heap| && t.heap[p].ch.None?
    ensures SetCh(SetCh(t, p, Some(m)), p, None) == t
  {
    assert SetCh(SetCh(t, p, Some(m)), p, None).heap == t.heap;
  }

  /** A listener that has its knock opens the gate and acknowledges. */
  lemma {:induction false} Answer(z: System, s: System, id: Id, k: nat, g: nat) returns (t: System)
    requires Reaches(z, s) && s.host.mux && !s.host.panicked
    requires k < |s.host.listeners| && s.host.listeners[k].id == id && s.host.listeners[k].at.Opening?
    requires id in s.acceptListeners && s.acceptListeners[id] == g < |s.gates| && s.gates[g] == Gate(id, false)
    ensures Reaches(z, t)
    ensures t == s.(host := t.host, gates := s.gates[g := Gate(id, true)])
    ensures t.host == s.host.(listeners := s.host.listeners[k := s.host.listeners[k].(at := Waiting(s.host.listeners[k].at.p))],
                              log := t.host.log)
    ensures t.host.log.received == s.host.log.received && t.host.log.sent == s.host.log.sent + [AckMsg(id, "")]
  {
    t := Extend(z, s, HostStep(OfListen(OpenDoor(k, ""))));
    t := Extend(z, t, HostStep(OfListen(SendAck(k, true))));
  }

  /** The host's half of a knock: from the wire, through its listener, to an open gate and an ack. */
  lemma {:induction false} Admit(z: System, s: System, id: Id, k: nat, g: nat) returns (t: System)
    requires Reaches(z, s) && Ready(s, id, k, g)
    requires s.host.mux && !s.host.panicked && s.host.run.Receiving?
    requires s.plugin.log.sent == s.host.log.received + [KnockMsg(id)]
    ensures Reaches(z, t)
    ensures t == s.(host := t.host, gates := s.gates[g := Gate(id, true)])
    ensures t.host == s.host.(log := t.host.log)
    ensures t.host.log.received == s.plugin.log.sent && t.host.log.sent == s.host.log.sent + [AckMsg(id, "")]
  {
    t := Deliver(z, s, id, k, g);
    t := Extend(z, t, HostStep(OfListen(ListenTake(k))));
    SetChUndo(s.host.tables, s.host.listeners[k].at.p, KnockMsg(id));
    assert t.host.tables == s.host.tables;
    t := Answer(z, t, id, k, g);
    assert t.host.listeners == s.host.listeners;
  }

  /** The ack reaches the slot the dialer is waiting on. */
  lemma {:induction false} AckArrives(z: System, s: System, id: Id, p: Ref) returns (t: System)
    requires Reaches(z, s) && s.plugin.mux && !s.plugin.panicked && s.plugin.run.Receiving?
    requires p < |s.plugin.tables.heap| && s.plugin.tables.heap[p].ch.None?
    requires id in s.plugin.tables.clientStreams && s.plugin.tables.clientStreams[id] == p
    requires s.host.log.sent == s.plugin.log.received + [AckMsg(id, "")]
    ensures Reaches(z, t) && t == s.(plugin := t.plugin)
    ensures t.plugin.mux && !t.plugin.panicked && t.plugin.run.Receiving? && t.plugin.dialer == s.plugin.dialer
    ensures t.plugin.tables == SetCh(s.plugin.tables, p, Some(AckMsg(id, "")))
    ensures t.plugin.log == s.plugin.log.(received := s.host.log.sent)
  {
    t := Extend(z, s, PluginStep(OfRun(Recv(AckMsg(id, "")))));
    t := Extend(z, t, PluginStep(OfRun(Route)));
    t := Extend(z, t, PluginStep(OfRun(Queue)));
    t := Extend(z, t, PluginStep(OfRun(Spawn)));
  }

  /** The dialer's half after the ack: the message reaches its slot, admits it, and it opens a stream. */
  lemma {:induction false} Collect(z: System, s: System, id: Id, p: Ref) returns (t: System)
    requires Reaches(z, s) && s.plugin.mux && !s.plugin.panicked && s.plugin.run.Receiving?
    requires s.plugin.dialer == Awaiting(id, p) && p < |s.plugin.tables.heap| && s.plugin.tables.heap[p].ch.None?
    requires id in s.plugin.tables.clientStreams && s.plugin.tables.clientStreams[id] == p
    requires s.host.log.sent == s.plugin.log.received + [AckMsg(id, "")]
    ensures Reaches(z, t) && t == s.(plugin := t.plugin, queue := s.queue + [id])
    ensures t.plugin.mux && !t.plugin.panicked && t.plugin.run.Receiving? && t.plugin.dialer.Unlocked?
    ensures t.plugin.tables.clientStreams == s.plugin.tables.clientStreams
    ensures t.plugin.log.received == s.host.log.sent && t.plugin.log.sent == s.plugin.log.sent
  {
    t := AckArrives(z, s, id, p);
    t := Extend(z, t, PluginStep(OfKnock(TakeAck)));
    t := Extend(z, t, PluginStep(OfKnock(OpenStream(true))));
  }

  /** A whole dial by the plugin, up to the opened stream; nobody has accepted it yet. */
  lemma {:induction false} Dial(z: System, s: System, id: Id, k: nat, g: nat) returns (t: System)
    requires Reaches(z, s) && Idle(s) && Ready(s, id, k, g) && id !in s.plugin.tables.clientStreams
    ensures Reaches(z, t) && Idle(t)
    ensures t.plugin.tables.clientStreams.Keys == s.plugin.tables.clientStreams.Keys + {id}
    ensures t.host.listeners == s.host.listeners && t.host.tables == s.host.tables
    ensures t.queue == s.queue + [id] && t.gates == s.gates[g := Gate(id, true)]
    ensures t.popping == s.popping && t.accepted == s.accepted
    ensures forall id', k', g' :: id' != id && Ready(s, id', k', g') ==> Ready(t, id', k', g')
  {
    t := Extend(z, s, PluginStep(OfKnock(Lock(id))));
    t := Extend(z, t, PluginStep(OfKnock(SendKnock(true))));
    t := Extend(z, t, PluginStep(OfKnock(AwaitAck)));
    t := Admit(z, t, id, k, g);
    t := Collect(z, t, id, |s.plugin.tables.heap|);
  }

  /** A listener that has been dialled. */
  lemma {:induction false} FirstDialled(tr: Option<Translator>, a: Id) returns (t: System)
    ensures Reaches(Start(tr), t) && Idle(t) && AllDialled(t) && |t.host.listeners| == 1
    ensures t.host.tables.serverStreams.Keys == {a} && t.plugin.tables.clientStreams.Keys == {a}
    ensures t.queue == [a] && t.gates == [Gate(a, true)] && t.popping == multiset{} && t.accepted == []
  {
    var z := Start(tr);
    assert Legal(z, []) && Documented(z, []) && Final(z, []) == z;
    t := Listen(z, z, a);
    t := Dial(z, t, a, 0, 0);
  }

  /** Two listeners, the second only after the first was dialled; neither stream is accepted yet. */
  lemma {:induction false} Overlap(tr: Option<Translator>, a: Id, b: Id) returns (t: System)
    requires a != b
    ensures Reaches(Start(tr), t)
    ensures t.queue == [a, b] && t.gates == [Gate(a, true), Gate(b, true)]
    ensures t.popping == multiset{} && t.accepted == []
  {
    t := FirstDialled(tr, a);
    t := Listen(Start(tr), t, b);
    t := Dial(Start(tr), t, b, 1, 1);
  }

  /** For any two ids, a run that keeps the documented rule gives each listener the other's stream. */
  lemma {:induction false} DocumentedOrderSwaps(tr: Option<Translator>, a: Id, b: Id) returns (t: System)
    requires a != b
    ensures Reaches(Start(tr), t) && t.accepted == [Accepted(a, b), Accepted(b, a)]
  {
    var z := Start(tr);
    t := Overlap(tr, a, b);
    t := AcceptAt(z, t, 1);
    t := AcceptAt(z, t, 0);
    assert t.accepted == [Accepted(a, b), Accepted(b, a)];
  }

  /** A gate with a token accepts the next stream. */
  lemma {:induction false} AcceptAt(z: System, s: System, g: nat) returns (t: System)
    requires Reaches(z, s) && g < |s.gates| && s.gates[g].token && s.queue != []
    ensures Reaches(z, t) && t.queue == s.queue[1..] && t.gates == s.gates[g := Gate(s.gates[g].id, false)]
    ensures t.accepted == s.accepted + [Accepted(s.queue[0], s.gates[g].id)]
  {
    t := Extend(z, s, TakeToken(g));
    t := Extend(z, t, PopStream(s.gates[g].id));
  }

  /** For every id, a run in which the listener of `id` accepts the stream that was dialled for it. */
  lemma {:induction false} DialIsAccepted(tr: Option<Translator>, id: Id) returns (t: System)
    ensures Reaches(Start(tr), t) && t.accepted == [Accepted(id, id)] && t.queue == []
  {
    t := FirstDialled(tr, id);
    t := AcceptAt(Start(tr), t, 0);
  }
}
