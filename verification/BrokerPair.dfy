/**
 Two brokers joined by their streamers.  What one Run receives is a prefix of what the other side
 sent, and that is all that is used of the transport here.
*/
module BrokerPair {
  import opened Basics
  import opened Broker
  import opened BrokerSafety
  import T = Transport

  ghost predicate Linked(a: State, b: State)
  {
    a.log.received <= b.log.sent && b.log.received <= a.log.sent
  }

  /** A Run can only receive the next message its peer has sent. */
  predicate InOrder(s: State, peer: State, e: Event)
  {
    e.OfRun? && e.r.Recv? ==> |s.log.received| < |peer.log.sent| && e.r.msg == peer.log.sent[|s.log.received|]
  }

  /** Admissions never outnumber doors, nor doors the knocks that asked for them. */
  lemma {:induction false} DoorsBetween(a: State, b: State, id: Id)
    requires Balanced(a, id) && Balanced(b, id) && Linked(a, b)
    ensures a.log.admitted[id] <= b.log.doors[id] <= CountIf(a.log.sent, KnockFor(id))
  {
    CountPrefix(a.log.received, b.log.sent, AdmissionFor(id));
    CountPrefix(b.log.received, a.log.sent, KnockFor(id));
  }

  /** In every pair of interleavings, including timeouts, drops and reaped entries: successful
      knocks never outnumber the peer's successful AcceptKnock calls, which never outnumber the
      knocks sent.  Both sides dial and listen, under equal ids, at once. */
  lemma {:induction false} KnockAccounting(
      ta: Option<Translator>, a: State, tb: Option<Translator>, b: State, id: Id)
    requires Reaches(Init(true, ta), a) && Reaches(Init(true, tb), b) && Linked(a, b)
    ensures a.log.admitted[id] <= b.log.doors[id] <= CountIf(a.log.sent, KnockFor(id))
  {
    Reached(true, ta, a);
    Reached(true, tb, b);
    DoorsBetween(a, b, id);
  }

  lemma {:induction false} LinkedStep(a: State, b: State, e: Event)
    requires Linked(a, b) && Enabled(a, e) && InOrder(a, b, e)
    ensures Linked(Next(a, e), b)
  {
    Traffic(a, e);
  }

  /** Host side of `at`: the plugin's listener address, translated once by the host. */
  ghost predicate HostDialled(tr: Translator, plugin: State, d: Dialled)
  {
    exists a :: a in plugin.log.adverts && a.id == d.id && tr.pluginToHost(a.at) == Some(d.at)
  }

  /** Plugin side of `at`: the host's listener address, translated once by the host. */
  ghost predicate PluginDialled(tr: Translator, host: State, d: Dialled)
  {
    exists a :: a in host.log.adverts && a.id == d.id && tr.hostToPlugin(a.at) == Some(d.at)
  }

  /** A Dial(id) only ever connects to an address the other side's Accept(id) is listening on,
      translated exactly once, by the host, in the direction of travel. */
  lemma {:induction false} AddressesComeFromThePeer(tr: Translator, host: State, plugin: State)
    requires Reaches(Init(false, Some(tr)), host) && Reaches(Init(false, None), plugin) && Linked(host, plugin)
    ensures forall d :: d in host.log.dialled ==> HostDialled(tr, plugin, d)
    ensures forall d :: d in plugin.log.dialled ==> PluginDialled(tr, host, d)
  {
    Reached(false, Some(tr), host);
    Reached(false, None, plugin);
    forall d | d in host.log.dialled ensures HostDialled(tr, plugin, d) {
      assert FromMessage(host, d);
      var i :| 0 <= i < |plugin.log.sent| && plugin.log.sent[i] == d.msg;
      assert FromListener(plugin, i);
      assert plugin.log.adverts[i] in plugin.log.adverts;
    }
    forall d | d in plugin.log.dialled ensures PluginDialled(tr, host, d) {
      assert FromMessage(plugin, d);
      var i :| 0 <= i < |host.log.sent| && host.log.sent[i] == d.msg;
      assert FromListener(host, i);
      assert host.log.adverts[i] in host.log.adverts;
    }
  }

  // ---------------------------------------------------------------- brokers on their streamers

  /** Two brokers and the streamers they talk through. */
  datatype Joint = Joint(wire: T.Pair, a: State, b: State)

  function Connected(muxA: bool, ta: Option<Translator>, muxB: bool, tb: Option<Translator>): Joint
  {
    Joint(T.Pair(T.Init(), T.Init()), Init(muxA, ta), Init(muxB, tb))
  }

  predicate Receives(e: Event)
  {
    e.OfRun? && e.r.Recv?
  }

  /** What a broker's step puts on the stream. */
  function Sends(s: State, e: Event): seq<ConnInfo>
    requires Enabled(s, e)
  {
    Traffic(s, e);
    Next(s, e).log.sent[|s.log.sent|..]
  }

  /** A step of the streamers alone, a broker's step without traffic, a step whose message its sender
      writes at that moment, or a receive of the message its receiver holds. */
  datatype Deed =
    | Stream(m: T.Move)
    | Work(first: bool, e: Event)
    | Say(first: bool, e: Event, ok: bool)
    | Hear(first: bool, e: Event)

  function BrokerOf(j: Joint, first: bool): State
  {
    if first then j.a else j.b
  }

  function MoveOf(first: bool, e: T.Event): T.Move
  {
    if first then T.A(e) else T.B(e)
  }

  predicate CanDo(j: Joint, d: Deed)
  {
    match d
    case Stream(m) => T.CanMove(j.wire, m) && !m.e.Write? && !m.e.Deliver?
    case Work(first, e) => Enabled(BrokerOf(j, first), e) && !Receives(e) && Sends(BrokerOf(j, first), e) == []
    case Say(first, e, ok) =>
      && Enabled(BrokerOf(j, first), e) && !Receives(e) && T.CanMove(j.wire, MoveOf(first, T.Write(ok)))
      && var side := T.SideOf(j.wire, first);
         Sends(BrokerOf(j, first), e) == if ok then [side.calls[side.sender.c].msg] else []
    case Hear(first, e) =>
      && T.CanMove(j.wire, MoveOf(first, T.Deliver)) && Enabled(BrokerOf(j, first), e)
      && e == OfRun(Recv(T.SideOf(j.wire, first).receiver.msg))
  }

  function SetBroker(j: Joint, first: bool, s: State): Joint
  {
    if first then j.(a := s) else j.(b := s)
  }

  function Do(j: Joint, d: Deed): Joint
    requires CanDo(j, d)
  {
    match d
    case Stream(m) => j.(wire := T.Moved(j.wire, m))
    case Work(first, e) => SetBroker(j, first, Next(BrokerOf(j, first), e))
    case Say(first, e, ok) =>
      SetBroker(j, first, Next(BrokerOf(j, first), e)).(wire := T.Moved(j.wire, MoveOf(first, T.Write(ok))))
    case Hear(first, e) =>
      SetBroker(j, first, Next(BrokerOf(j, first), e)).(wire := T.Moved(j.wire, MoveOf(first, T.Deliver)))
  }

  predicate Does(j: Joint, ds: seq<Deed>)
    decreases ds
  {
    ds == [] || (CanDo(j, ds[0]) && Does(Do(j, ds[0]), ds[1..]))
  }

  function Done(j: Joint, ds: seq<Deed>): Joint
    requires Does(j, ds)
    decreases ds
  {
    if ds == [] then j else Done(Do(j, ds[0]), ds[1..])
  }

  /** A broker's traffic is that of its streamer. */
  ghost predicate Agrees(s: State, side: T.Side)
  {
    s.log.sent == T.Sent(side.writes) && s.log.received == side.received
  }

  ghost predicate JointOk(j: Joint)
  {
    T.PairOk(j.wire) && Agrees(j.a, j.wire.a) && Agrees(j.b, j.wire.b)
  }

  /** What a streamer's step adds to its traffic. */
  lemma {:induction false} SideMoves(s: T.Side, e: T.Event, incoming: seq<ConnInfo>)
    requires T.Enabled(s, e, incoming)
    ensures var s' := T.Next(s, e, incoming);
            && s'.received == s.received + (if e.Deliver? then [s.receiver.msg] else [])
            && T.Sent(s'.writes) == T.Sent(s.writes) + if e.Write? && e.ok then [s.calls[s.sender.c].msg] else []
  {
    if e.Write? {
      assert T.Next(s, e, incoming).writes[..|s.writes|] == s.writes;
    }
  }

  lemma {:induction false} HearsQuietly(s: State, e: Event)
    requires Enabled(s, e) && Receives(e)
    ensures Sends(s, e) == []
  {
  }

  /** A broker and its streamer stay in agreement when the one sends and receives what the other does. */
  lemma {:induction false} AgreesStep(s: State, e: Event, side: T.Side, te: T.Event, incoming: seq<ConnInfo>)
    requires Agrees(s, side) && Enabled(s, e) && T.Enabled(side, te, incoming) && (te.Write? || te.Deliver?)
    requires Sends(s, e) == if te.Write? && te.ok then [side.calls[side.sender.c].msg] else []
    requires if te.Deliver? then e == OfRun(Recv(side.receiver.msg)) else !Receives(e)
    ensures Agrees(Next(s, e), T.Next(side, te, incoming))
  {
    Traffic(s, e);
    SideMoves(side, te, incoming);
    assert Next(s, e).log.sent == s.log.sent + Sends(s, e);
  }

  lemma {:induction false} JointTalk(j: Joint, first: bool, e: Event, te: T.Event)
    requires JointOk(j) && Enabled(BrokerOf(j, first), e) && T.CanMove(j.wire, MoveOf(first, te)) && (te.Write? || te.Deliver?)
    requires var side := T.SideOf(j.wire, first);
             && (Sends(BrokerOf(j, first), e) == if te.Write? && te.ok then [side.calls[side.sender.c].msg] else [])
             && (if te.Deliver? then e == OfRun(Recv(side.receiver.msg)) else !Receives(e))
    ensures JointOk(SetBroker(j, first, Next(BrokerOf(j, first), e)).(wire := T.Moved(j.wire, MoveOf(first, te))))
  {
    T.PairStep(j.wire, MoveOf(first, te));
    AgreesStep(BrokerOf(j, first), e, T.SideOf(j.wire, first), te, T.Sent(T.SideOf(j.wire, !first).writes));
  }

  lemma {:induction false} JointStream(j: Joint, m: T.Move)
    requires JointOk(j) && CanDo(j, Stream(m))
    ensures JointOk(Do(j, Stream(m)))
  {
    T.PairStep(j.wire, m);
    match m
    case A(e) => SideMoves(j.wire.a, e, T.Sent(j.wire.b.writes));
    case B(e) => SideMoves(j.wire.b, e, T.Sent(j.wire.a.writes));
  }

  lemma {:induction false} JointStep(j: Joint, d: Deed)
    requires JointOk(j) && CanDo(j, d)
    ensures JointOk(Do(j, d))
  {
    match d {
      case Stream(m) => JointStream(j, m);
      case Work(first, e) =>
        Traffic(BrokerOf(j, first), e);
        assert Next(BrokerOf(j, first), e).log.sent == BrokerOf(j, first).log.sent + Sends(BrokerOf(j, first), e);
      case Say(first, e, ok) => JointTalk(j, first, e, T.Write(ok));
      case Hear(first, e) =>
        HearsQuietly(BrokerOf(j, first), e);
        JointTalk(j, first, e, T.Deliver);
    }
  }

  lemma {:induction false} JointRun(za: State, zb: State, j: Joint, ds: seq<Deed>)
    requires JointOk(j) && Reaches(za, j.a) && Reaches(zb, j.b) && Does(j, ds)
    ensures JointOk(Done(j, ds)) && Reaches(za, Done(j, ds).a) && Reaches(zb, Done(j, ds).b)
    decreases ds
  {
    if ds != [] {
      var d := ds[0];
      JointStep(j, d);
      if !d.Stream? {
        var u := Extend(if d.first then za else zb, BrokerOf(j, d.first), d.e);
      }
      JointRun(za, zb, Do(j, d), ds[1..]);
    }
  }

  /** In every run of two brokers on their streamers, each is in a state that one of its own
      interleavings reaches, and the two are linked. */
  lemma {:induction false} BrokersOnStreamersAreLinked(
      muxA: bool, ta: Option<Translator>, muxB: bool, tb: Option<Translator>, ds: seq<Deed>)
    requires Does(Connected(muxA, ta, muxB, tb), ds)
    ensures var j := Done(Connected(muxA, ta, muxB, tb), ds);
            Reaches(Init(muxA, ta), j.a) && Reaches(Init(muxB, tb), j.b) && Linked(j.a, j.b)
  {
    ReachesSelf(Init(muxA, ta));
    ReachesSelf(Init(muxB, tb));
    JointRun(Init(muxA, ta), Init(muxB, tb), Connected(muxA, ta, muxB, tb), ds);
    T.Prefixes(Done(Connected(muxA, ta, muxB, tb), ds).wire);
  }

  /** So the knock accounts hold in every such run, in both directions at once. */
  lemma {:induction false} KnocksOnStreamers(ta: Option<Translator>, tb: Option<Translator>, ds: seq<Deed>, id: Id)
    requires Does(Connected(true, ta, true, tb), ds)
    ensures var j := Done(Connected(true, ta, true, tb), ds);
            && j.a.log.admitted[id] <= j.b.log.doors[id] <= CountIf(j.a.log.sent, KnockFor(id))
            && j.b.log.admitted[id] <= j.a.log.doors[id] <= CountIf(j.b.log.sent, KnockFor(id))
  {
    BrokersOnStreamersAreLinked(true, ta, true, tb, ds);
    var j := Done(Connected(true, ta, true, tb), ds);
    KnockAccounting(ta, j.a, tb, j.b, id);
    KnockAccounting(tb, j.b, ta, j.a, id);
  }
}
