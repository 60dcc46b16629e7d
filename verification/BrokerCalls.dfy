/**
 What two brokers on their streamers do for their callers, from one call to the other: an address that
 Accept listens on is what the peer's Dial connects to, and a knock is answered.  Every message travels
 through both streamers.
*/
module BrokerCalls {
  import opened Basics
  import opened Broker
  import opened BrokerSafety
  import opened BrokerPair
  import T = Transport

  // ---------------------------------------------------------------- runs of the pair

  ghost predicate Comes(z: Joint, j: Joint)
  {
    exists ds :: Does(z, ds) && Done(z, ds) == j
  }

  lemma {:induction false} DoesAppend(z: Joint, ds: seq<Deed>, d: Deed)
    requires Does(z, ds) && CanDo(Done(z, ds), d)
    ensures Does(z, ds + [d]) && Done(z, ds + [d]) == Do(Done(z, ds), d)
    decreases ds
  {
    if ds == [] {
      assert [d][1..] == [] && ds + [d] == [d];
    } else {
      assert (ds + [d])[1..] == ds[1..] + [d];
      DoesAppend(Do(z, ds[0]), ds[1..], d);
    }
  }

  lemma {:induction false} Then(z: Joint, j: Joint, d: Deed) returns (u: Joint)
    requires Comes(z, j) && CanDo(j, d)
    ensures u == Do(j, d) && Comes(z, u)
  {
    u := Do(j, d);
    var ds :| Does(z, ds) && Done(z, ds) == j;
    DoesAppend(z, ds, d);
  }

  /** The steps of a broker that put a message on the stream. */
  predicate Speaks(e: Event)
  {
    || (e.OfDial? && e.d.AcceptAddr?) || e == OfKnock(SendKnock(true))
    || (e.OfListen? && e.l.SendAck? && e.l.ok)
  }

  lemma {:induction false} Silent(s: State, e: Event)
    requires Enabled(s, e) && !Speaks(e)
    ensures Sends(s, e) == []
  {
    match e
    case OfRun(_) => case OfDial(_) => case OfKnock(_) => case OfListen(_) =>
  }

  lemma {:induction false} Works(z: Joint, j: Joint, first: bool, e: Event) returns (u: Joint)
    requires Comes(z, j) && Enabled(BrokerOf(j, first), e) && !Receives(e) && !Speaks(e)
    ensures Comes(z, u) && u == SetBroker(j, first, Next(BrokerOf(j, first), e))
  {
    Silent(BrokerOf(j, first), e);
    u := Then(z, j, Work(first, e));
  }

  // ---------------------------------------------------------------- one message through both streamers

  /** Nothing is being sent or on its way to the other side. */
  ghost predicate Rests(s: T.Side, peer: T.Side)
  {
    s.sender.Idle? && s.receiver.Reading? && s.fetched == |T.Sent(peer.writes)|
  }

  ghost predicate Calm(j: Joint)
  {
    Rests(j.wire.a, j.wire.b) && Rests(j.wire.b, j.wire.a)
  }

  function SetSide(p: T.Pair, first: bool, s: T.Side): T.Pair
  {
    if first then p.(a := s) else p.(b := s)
  }

  /** The sender's half: a Send call is taken, written and answered. */
  lemma {:induction false} Says(z: Joint, j: Joint, first: bool, e: Event, m: ConnInfo) returns (u: Joint)
    requires Comes(z, j) && T.SideOf(j.wire, first).sender.Idle?
    requires Enabled(BrokerOf(j, first), e) && !Receives(e) && Sends(BrokerOf(j, first), e) == [m]
    ensures Comes(z, u)
    ensures var s := T.SideOf(j.wire, first);
            u == SetBroker(j, first, Next(BrokerOf(j, first), e)).(
                   wire := SetSide(j.wire, first, s.(calls := s.calls + [T.Returned(m, true)],
                                                     writes := s.writes + [T.Wrote(|s.calls|, m, true)])))
  {
    var s := T.SideOf(j.wire, first);
    var n := |s.calls|;
    u := Then(z, j, Stream(MoveOf(first, T.Send(m))));
    u := Then(z, u, Stream(MoveOf(first, T.HandOver(n))));
    u := Then(z, u, Say(first, e, true));
    u := Then(z, u, Stream(MoveOf(first, T.Reply)));
    assert T.SideOf(u.wire, first).calls == s.calls + [T.Returned(m, true)];
  }

  /** The receiver's half: the message is read from the stream and given to Run. */
  lemma {:induction false} Hears(z: Joint, j: Joint, first: bool, m: ConnInfo) returns (u: Joint)
    requires Comes(z, j) && Enabled(BrokerOf(j, first), OfRun(Recv(m))) && T.SideOf(j.wire, first).receiver.Reading?
    requires var s, sent := T.SideOf(j.wire, first), T.Sent(T.SideOf(j.wire, !first).writes);
             s.fetched < |sent| && sent[s.fetched] == m
    ensures Comes(z, u)
    ensures var s := T.SideOf(j.wire, first);
            u == SetBroker(j, first, Next(BrokerOf(j, first), OfRun(Recv(m)))).(
                   wire := SetSide(j.wire, first, s.(fetched := s.fetched + 1, received := s.received + [m])))
  {
    u := Then(z, j, Stream(MoveOf(first, T.Fetch)));
    u := Then(z, u, Hear(first, OfRun(Recv(m))));
  }

  /** A message goes from one broker to the other, and its Send returns without an error. */
  lemma {:induction false} Passes(z: Joint, j: Joint, first: bool, e: Event, m: ConnInfo) returns (u: Joint)
    requires Comes(z, j) && Calm(j) && Enabled(BrokerOf(j, first), e) && !Receives(e) && Sends(BrokerOf(j, first), e) == [m]
    requires Enabled(BrokerOf(j, !first), OfRun(Recv(m)))
    ensures Comes(z, u) && Calm(u)
    ensures BrokerOf(u, first) == Next(BrokerOf(j, first), e)
    ensures BrokerOf(u, !first) == Next(BrokerOf(j, !first), OfRun(Recv(m)))
    ensures T.SideOf(u.wire, first).calls == T.SideOf(j.wire, first).calls + [T.Returned(m, true)]
    ensures T.SideOf(u.wire, !first).received == T.SideOf(j.wire, !first).received + [m]
  {
    var writes := T.SideOf(j.wire, first).writes;
    u := Says(z, j, first, e, m);
    assert T.SideOf(u.wire, first).writes[..|writes|] == writes;
    u := Hears(z, u, !first, m);
  }

  // ---------------------------------------------------------------- Accept and Dial without multiplexing

  /** An address or an ack arrives: Run files it in the slot of its id. */
  lemma {:induction false} Files(z: Joint, j: Joint, first: bool, m: ConnInfo) returns (u: Joint)
    requires Comes(z, j) && !BrokerOf(j, first).panicked && BrokerOf(j, first).run == Routing(m) && !IsKnock(m)
    requires var t := BrokerOf(j, first).tables;
             t == Tables([], map[], map[]) || t == Tables([Pending(m.serviceId, false, None, false)], map[m.serviceId := 0], map[])
    ensures Comes(z, u)
    ensures u == SetBroker(j, first, BrokerOf(j, first).(
                   tables := Tables([Pending(m.serviceId, false, Some(m), false)], map[m.serviceId := 0], map[]),
                   run := Receiving, reapers := BrokerOf(j, first).reapers + multiset{(m.serviceId, 0)}))
  {
    u := Works(z, j, first, OfRun(Route));
    u := Works(z, u, first, OfRun(Queue));
    u := Works(z, u, first, OfRun(Spawn));
  }

  lemma {:induction false} TakesAddress(s: State, id: Id, m: ConnInfo)
    requires !s.mux && !s.panicked && s.dials == multiset{DialWaiting(id, 0)}
    requires s.tables == Tables([Pending(id, false, Some(m), false)], map[id := 0], map[])
    ensures Enabled(s, OfDial(DialTake(id, 0)))
    ensures Next(s, OfDial(DialTake(id, 0))) ==
              s.(tables := Tables([Pending(id, false, None, false)], map[id := 0], map[]), dials := multiset{DialTook(id, 0, m)},
                 log := s.log.(ackDrops := s.log.ackDrops + One(IsAdmission(m), m.serviceId)))
  {
  }

  /** The address as a Dial uses it. */
  function Target(translator: Option<Translator>, m: ConnInfo): Option<NetAddr>
  {
    var at := if translator.Some? then translator.value.pluginToHost((m.network, m.address)) else Some((m.network, m.address));
    if at.Some? && (at.value.0 == "tcp" || at.value.0 == "unix") then at else None
  }

  lemma {:induction false} UsesAddress(s: State, id: Id, m: ConnInfo)
    requires !s.mux && !s.panicked && s.dials == multiset{DialTook(id, 0, m)}
    requires s.tables.heap == [Pending(id, false, None, false)]
    ensures Enabled(s, OfDial(DialFinish(id, 0, m)))
    ensures var s' := Next(s, OfDial(DialFinish(id, 0, m)));
            && !s'.panicked && s'.dials == multiset{}
            && s'.log.dialled == s.log.dialled + var at := Target(s.translator, m); if at.Some? then [Dialled(id, at.value, m)] else []
  {
  }

  lemma {:induction false} Connects(z: Joint, j: Joint, first: bool, id: Id, m: ConnInfo) returns (u: Joint)
    requires Comes(z, j) && !BrokerOf(j, first).mux && !BrokerOf(j, first).panicked
    requires BrokerOf(j, first).dials == multiset{DialWaiting(id, 0)}
    requires BrokerOf(j, first).tables == Tables([Pending(id, false, Some(m), false)], map[id := 0], map[])
    ensures Comes(z, u) && BrokerOf(u, !first) == BrokerOf(j, !first)
    ensures BrokerOf(u, first).log.dialled == BrokerOf(j, first).log.dialled +
              var at := Target(BrokerOf(j, first).translator, m); if at.Some? then [Dialled(id, at.value, m)] else []
    ensures !BrokerOf(u, first).panicked && BrokerOf(u, first).dials == multiset{}
  {
    TakesAddress(BrokerOf(j, first), id, m);
    u := Works(z, j, first, OfDial(DialTake(id, 0)));
    UsesAddress(BrokerOf(u, first), id, m);
    u := Works(z, u, first, OfDial(DialFinish(id, 0, m)));
  }

  /** The Send of an Accept that has bound its socket to `at`. */
  lemma {:induction false} Advertises(s: State, id: Id, at: NetAddr, to: NetAddr)
    requires !s.mux && !s.panicked
    requires (if s.translator.Some? then s.translator.value.hostToPlugin(at) else Some(at)) == Some(to)
    ensures Enabled(s, OfDial(AcceptAddr(id, at, true)))
    ensures Sends(s, OfDial(AcceptAddr(id, at, true))) == [ConnInfo(id, to.0, to.1, None)]
    ensures Next(s, OfDial(AcceptAddr(id, at, true))).log.adverts == s.log.adverts + [Advert(id, at)]
  {
  }

  /** A Dial(id) waits for its address, if it was called. */
  function Dialling(tr: Option<Translator>, id: Id, called: bool): State
  {
    if called then
      Init(false, tr).(tables := Tables([Pending(id, false, None, false)], map[id := 0], map[]),
                       dials := multiset{DialWaiting(id, 0)})
    else Init(false, tr)
  }

  lemma {:induction false} DialBegins(ta: Option<Translator>, tb: Option<Translator>, first: bool, id: Id, called: bool)
    returns (u: Joint)
    ensures Comes(Connected(false, ta, false, tb), u) && Calm(u)
    ensures BrokerOf(u, first) == Init(false, if first then ta else tb)
    ensures BrokerOf(u, !first) == Dialling(if first then tb else ta, id, called)
  {
    var z := Connected(false, ta, false, tb);
    assert Does(z, []) && Done(z, []) == z;
    u := z;
    if called {
      u := Works(z, u, !first, OfDial(DialStart(id)));
    }
  }

  /** Accept announces its address, and the message reaches the other side's Run. */
  lemma {:induction false} Announces(
      ta: Option<Translator>, tb: Option<Translator>, first: bool, id: Id, at: NetAddr, to: NetAddr, called: bool)
    returns (u: Joint)
    requires var own := if first then ta else tb; (if own.Some? then own.value.hostToPlugin(at) else Some(at)) == Some(to)
    ensures Comes(Connected(false, ta, false, tb), u)
    ensures BrokerOf(u, first).log.sent == [ConnInfo(id, to.0, to.1, None)] && BrokerOf(u, first).log.adverts == [Advert(id, at)]
    ensures var m, peer := ConnInfo(id, to.0, to.1, None), Dialling(if first then tb else ta, id, called);
            BrokerOf(u, !first) == peer.(run := Routing(m), log := peer.log.(received := [m]))
  {
    var z := Connected(false, ta, false, tb);
    u := DialBegins(ta, tb, first, id, called);
    Advertises(BrokerOf(u, first), id, at, to);
    u := Passes(z, u, first, OfDial(AcceptAddr(id, at, true)), ConnInfo(id, to.0, to.1, None));
  }

  /** A Dial of an id whose entry is there waits on it. */
  lemma {:induction false} JoinsEntry(s: State, id: Id, m: ConnInfo)
    requires !s.mux && !s.panicked && s.tables == Tables([Pending(id, false, Some(m), false)], map[id := 0], map[])
    ensures Enabled(s, OfDial(DialStart(id)))
    ensures Next(s, OfDial(DialStart(id))) == s.(dials := s.dials + multiset{DialWaiting(id, 0)})
  {
  }

  /** The address lies in the entry that Dial(id) waits on. */
  lemma {:induction false} AddressIsFiled(
      ta: Option<Translator>, tb: Option<Translator>, first: bool, id: Id, at: NetAddr, to: NetAddr, called: bool)
    returns (u: Joint)
    requires var own := if first then ta else tb; (if own.Some? then own.value.hostToPlugin(at) else Some(at)) == Some(to)
    ensures Comes(Connected(false, ta, false, tb), u)
    ensures BrokerOf(u, first).log.sent == [ConnInfo(id, to.0, to.1, None)] && BrokerOf(u, first).log.adverts == [Advert(id, at)]
    ensures var m, d := ConnInfo(id, to.0, to.1, None), BrokerOf(u, !first);
            && !d.mux && !d.panicked && d.translator == (if first then tb else ta) && d.log.dialled == []
            && d.dials == multiset{DialWaiting(id, 0)} && d.tables == Tables([Pending(id, false, Some(m), false)], map[id := 0], map[])
  {
    var z, m := Connected(false, ta, false, tb), ConnInfo(id, to.0, to.1, None);
    u := Announces(ta, tb, first, id, at, to, called);
    u := Files(z, u, !first, m);
    if !called {
      JoinsEntry(BrokerOf(u, !first), id, m);
      u := Works(z, u, !first, OfDial(DialStart(id)));
    }
  }

  /** From Accept(id) at `at` on one side to the connection of Dial(id) on the other, whichever is called
      first; `to` is the address that the accepting side announces. */
  lemma {:induction false} AcceptMeetsDial(
      ta: Option<Translator>, tb: Option<Translator>, first: bool, id: Id, at: NetAddr, to: NetAddr, dialFirst: bool)
    returns (u: Joint)
    requires var own := if first then ta else tb; (if own.Some? then own.value.hostToPlugin(at) else Some(at)) == Some(to)
    ensures Comes(Connected(false, ta, false, tb), u)
    ensures BrokerOf(u, first).log.sent == [ConnInfo(id, to.0, to.1, None)] && BrokerOf(u, first).log.adverts == [Advert(id, at)]
    ensures BrokerOf(u, !first).log.dialled ==
              var peer := if first then tb else ta;
              var target := if peer.Some? then peer.value.pluginToHost(to) else Some(to);
              if target.Some? && (target.value.0 == "tcp" || target.value.0 == "unix")
              then [Dialled(id, target.value, ConnInfo(id, to.0, to.1, None))] else []
  {
    u := AddressIsFiled(ta, tb, first, id, at, to, dialFirst);
    u := Connects(Connected(false, ta, false, tb), u, !first, id, ConnInfo(id, to.0, to.1, None));
  }

  /** For every id and every tcp or unix address: a run in which the host's Dial(id) connects to the
      address that the plugin's Accept(id) listens on, as the host's translator has it. */
  lemma {:induction false} HostReachesPlugin(tr: Translator, id: Id, at: NetAddr, to: NetAddr, dialFirst: bool) returns (u: Joint)
    requires tr.pluginToHost(at) == Some(to) && (to.0 == "tcp" || to.0 == "unix")
    ensures Comes(Connected(false, Some(tr), false, None), u)
    ensures u.b.log.adverts == [Advert(id, at)] && u.a.log.dialled == [Dialled(id, to, ConnInfo(id, at.0, at.1, None))]
  {
    u := AcceptMeetsDial(Some(tr), None, false, id, at, at, dialFirst);
  }

  /** And one in which the plugin's Dial(id) connects to the address of the host's Accept(id), as the host
      has translated it for the plugin. */
  lemma {:induction false} PluginReachesHost(tr: Translator, id: Id, at: NetAddr, to: NetAddr, dialFirst: bool) returns (u: Joint)
    requires tr.hostToPlugin(at) == Some(to) && (to.0 == "tcp" || to.0 == "unix")
    ensures Comes(Connected(false, Some(tr), false, None), u)
    ensures u.a.log.adverts == [Advert(id, at)] && u.b.log.dialled == [Dialled(id, to, ConnInfo(id, to.0, to.1, None))]
  {
    u := AcceptMeetsDial(Some(tr), None, true, id, at, to, dialFirst);
  }

  // ---------------------------------------------------------------- a knock and its answer

  /** A broker that listens for knocks on `id` only. */
  function Hearkening(tr: Option<Translator>, id: Id): State
  {
    Init(true, tr).(tables := Tables([Pending(id, true, None, false)], map[], map[id := 0]),
                    listeners := [Listener(id, 0, Waiting(0))])
  }

  /** One that has knocked on `id` and waits for the ack. */
  function Knocking(tr: Option<Translator>, id: Id): State
  {
    Init(true, tr).(tables := Tables([Pending(id, false, None, false)], map[id := 0], map[]), dialer := Awaiting(id, 0),
                    log := Init(true, tr).log.(sent := [ConnInfo(id, "", "", Some(Knock(true, false, "")))]))
  }

  lemma {:induction false} ListenerIsThere(ta: Option<Translator>, tb: Option<Translator>, first: bool, id: Id) returns (u: Joint)
    ensures Comes(Connected(true, ta, true, tb), u) && Calm(u)
    ensures BrokerOf(u, first) == Hearkening(if first then ta else tb, id)
    ensures BrokerOf(u, !first) == Init(true, if first then tb else ta).(dialer := Locked(id))
  {
    var z := Connected(true, ta, true, tb);
    assert Does(z, []) && Done(z, []) == z;
    u := Works(z, z, first, OfListen(AcceptMux(id)));
    u := Works(z, u, first, OfListen(ListenStart(0)));
    u := Works(z, u, !first, OfKnock(Lock(id)));
  }

  lemma {:induction false} KnockIsHeard(ta: Option<Translator>, tb: Option<Translator>, first: bool, id: Id) returns (u: Joint)
    ensures Comes(Connected(true, ta, true, tb), u) && Calm(u)
    ensures var l, m := Hearkening(if first then ta else tb, id), ConnInfo(id, "", "", Some(Knock(true, false, "")));
            BrokerOf(u, first) == l.(run := Routing(m), log := l.log.(received := [m]))
    ensures BrokerOf(u, !first) == Knocking(if first then tb else ta, id)
  {
    var z := Connected(true, ta, true, tb);
    u := ListenerIsThere(ta, tb, first, id);
    assert Sends(BrokerOf(u, !first), OfKnock(SendKnock(true))) == [KnockMsg(id)];
    u := Passes(z, u, !first, OfKnock(SendKnock(true)), KnockMsg(id));
    u := Works(z, u, !first, OfKnock(AwaitAck));
  }

  lemma {:induction false} KnockIsFiled(ta: Option<Translator>, tb: Option<Translator>, first: bool, id: Id) returns (u: Joint)
    ensures Comes(Connected(true, ta, true, tb), u) && Calm(u)
    ensures var l, m := Hearkening(if first then ta else tb, id), ConnInfo(id, "", "", Some(Knock(true, false, "")));
            BrokerOf(u, first) == l.(tables := Tables([Pending(id, true, Some(m), false)], map[], map[id := 0]),
                                     log := l.log.(received := [m]))
    ensures BrokerOf(u, !first) == Knocking(if first then tb else ta, id)
  {
    var z := Connected(true, ta, true, tb);
    u := KnockIsHeard(ta, tb, first, id);
    u := Works(z, u, first, OfRun(Route));
    u := Works(z, u, first, OfRun(Queue));
  }

  /** The listener takes the knock and asks the muxer, which answers `error`. */
  lemma {:induction false} KnockIsTaken(ta: Option<Translator>, tb: Option<Translator>, first: bool, id: Id, error: string)
    returns (u: Joint)
    ensures Comes(Connected(true, ta, true, tb), u) && Calm(u)
    ensures var l := Hearkening(if first then ta else tb, id);
            && BrokerOf(u, first) == l.(listeners := [Listener(id, 0, Acking(0, error))], log := BrokerOf(u, first).log)
            && BrokerOf(u, first).log.doors == (if error == "" then multiset{id} else multiset{})
            && BrokerOf(u, first).log.refused == (if error == "" then multiset{} else multiset{id})
            && BrokerOf(u, first).log.sent == []
    ensures BrokerOf(u, !first) == Knocking(if first then tb else ta, id)
  {
    var z := Connected(true, ta, true, tb);
    u := KnockIsFiled(ta, tb, first, id);
    u := Works(z, u, first, OfListen(ListenTake(0)));
    u := Works(z, u, first, OfListen(OpenDoor(0, error)));
  }

  lemma {:induction false} KnockIsAnswered(ta: Option<Translator>, tb: Option<Translator>, first: bool, id: Id, error: string)
    returns (u: Joint)
    ensures Comes(Connected(true, ta, true, tb), u) && Calm(u)
    ensures BrokerOf(u, first).listeners == [Listener(id, 0, Waiting(0))]
    ensures BrokerOf(u, first).log.doors == if error == "" then multiset{id} else multiset{}
    ensures var d, m := Knocking(if first then tb else ta, id), ConnInfo(id, "", "", Some(Knock(true, true, error)));
            && BrokerOf(u, first).log.sent == [m]
            && BrokerOf(u, !first) == d.(run := Routing(m), log := d.log.(received := [m]))
  {
    var z := Connected(true, ta, true, tb);
    u := KnockIsTaken(ta, tb, first, id, error);
    assert Sends(BrokerOf(u, first), OfListen(SendAck(0, true))) == [AckMsg(id, error)];
    u := Passes(z, u, first, OfListen(SendAck(0, true)), AckMsg(id, error));
  }

  /** For every id, both directions and every answer of the muxer: a run in which a knock reaches the
      listener of its id, the answer reaches the dialer, and it goes on to open its stream if and only if
      the answer is no error; the listener then waits for the next knock. */
  lemma {:induction false} KnockEnds(ta: Option<Translator>, tb: Option<Translator>, first: bool, id: Id, error: string)
    returns (u: Joint)
    ensures Comes(Connected(true, ta, true, tb), u) && Calm(u)
    ensures BrokerOf(u, first).listeners == [Listener(id, 0, Waiting(0))]
    ensures BrokerOf(u, first).log.doors == if error == "" then multiset{id} else multiset{}
    ensures BrokerOf(u, !first).dialer == if error == "" then Admitted(id) else Unlocked
    ensures BrokerOf(u, !first).log.admitted == if error == "" then multiset{id} else multiset{}
  {
    var z := Connected(true, ta, true, tb);
    u := KnockIsAnswered(ta, tb, first, id, error);
    u := Files(z, u, !first, ConnInfo(id, "", "", Some(Knock(true, true, error))));
    u := Works(z, u, !first, OfKnock(TakeAck));
  }
}
