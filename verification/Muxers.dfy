/**
 The two muxers as the objects they are.  Each method is one lock region or channel operation of
 internal/grpcmux, and is proved to be the step of the routing models taken at that moment; a
 method that would block has the condition it blocks on as its precondition.
*/
module ServerMuxer {
  import opened Basics
  import opened Broker
  import opened PluginRouting

  /** blockedServerListener's acceptCh: the connections handed to this listener so far. */
  class AcceptChannel {
    const id: Id
    var handed: seq<Stream>

    constructor (id: Id)
      ensures this.id == id && handed == []
    {
      this.id, handed := id, [];
    }
  }

  /** The stream the loop holds is the one the door was opened for. */
  predicate InOrder(s: System)
  {
    s.loop.Holding? ==>
      match s.loop.stream
      case Plain => s.knockCh.None?
      case Toward(id) => s.knockCh == Some(id)
  }

  class GRPCServerMuxer {
    var knockCh: Option<Id>
    var acceptChannels: map<Id, AcceptChannel>
    var loop: LoopAt
    var holds: AcceptChannel?
    ghost var made: set<AcceptChannel>

    /** The muxer's part of a system, and every channel registered under its own id. */
    ghost predicate Mirrors(s: System)
      reads this
    {
      && knockCh == s.knockCh && acceptChannels.Keys == s.channels && loop == s.loop
      && (forall id :: id in acceptChannels ==> acceptChannels[id].id == id)
      && (loop.Delivering? ==> holds != null && holds.id == loop.id)
    }

    /** Every channel ever made has been handed only streams that were opened for its id. */
    ghost predicate Sound()
      reads this, made
    {
      && (forall id :: id in acceptChannels ==> acceptChannels[id] in made)
      && (loop.Delivering? ==> holds in made && loop.stream == Toward(loop.id))
      && (forall ch :: ch in made ==> forall x :: x in ch.handed ==> x == Toward(ch.id))
    }

    constructor ()
      ensures (forall tr :: Mirrors(Start(tr))) && Sound() && made == {}
    {
      knockCh, acceptChannels, loop, holds, made := None, map[], Accepting, null, {};
    }

    /** Listener: registers the channel under the id, over any earlier one. */
    method Listener(id: Id, ghost s: System) returns (ch: AcceptChannel)
      requires Mirrors(s)
      modifies this`acceptChannels, this`made
      ensures Mirrors(Advance(s, Register(id))) && acceptChannels == old(acceptChannels)[id := ch]
      ensures fresh(ch) && ch.handed == [] && made == old(made) + {ch}
    {
      ch := new AcceptChannel(id);
      acceptChannels, made := acceptChannels[id := ch], made + {ch};
    }

    /** AcceptKnock never looks for a listener and never fails. */
    method AcceptKnock(id: Id, ghost s: System, ghost i: nat)
      requires Mirrors(s) && knockCh.None?
      requires CanStep(s, PluginStep(OfListen(OpenDoor(i, "")))) && s.plugin.listeners[i].id == id
      modifies this`knockCh
      ensures Mirrors(Advance(s, PluginStep(OfListen(OpenDoor(i, "")))))
      ensures knockCh == Some(id)
    {
      knockCh := Some(id);
    }

    /** session.Accept in the loop of Accept. */
    method Receive(stream: Stream, ghost s: System)
      requires Mirrors(s) && CanStep(s, Pop) && s.queue[0] == stream
      modifies this`loop
      ensures Mirrors(Advance(s, Pop))
      ensures loop == Holding(stream)
    {
      loop := Holding(stream);
    }

    /** The loop's select: the stream goes to the knocked listener, is closed, or is returned. */
    method Route(ghost s: System) returns (dest: Dest)
      requires Mirrors(s) && CanStep(s, Select)
      modifies this`knockCh, this`loop, this`holds
      ensures Mirrors(Advance(s, Select))
      ensures Advance(s, Select).routed == s.routed + [Delivery(s.loop.stream, dest, s.channels)]
      ensures loop.Delivering? ==> loop.id in acceptChannels && holds == acceptChannels[loop.id]
      ensures knockCh.None? && dest == (match old(knockCh)
                                         case None => Default
                                         case Some(id) => if id in acceptChannels then To(id) else Closed)
      ensures loop == if dest.To? then Delivering(dest.id, old(loop.stream)) else Accepting
    {
      var stream := loop.stream;
      if knockCh.Some? {
        var id := knockCh.value;
        knockCh := None;
        if id !in acceptChannels {
          loop := Accepting;
          return Closed;
        }
        holds, loop := acceptChannels[id], Delivering(id, stream);
        return To(id);
      }
      loop := Accepting;
      return Default;
    }

    /** The rendezvous with the listener's Accept: it goes to the channel that was looked up. */
    method Deliver(ghost s: System)
      requires Mirrors(s) && CanStep(s, HandOff)
      modifies this`loop, holds
      ensures Mirrors(Advance(s, HandOff))
      ensures holds == old(holds) && holds.id == s.loop.id
      ensures holds.handed == old(holds.handed) + [s.loop.stream]
      ensures loop.Accepting?
    {
      holds.handed := holds.handed + [loop.stream];
      loop := Accepting;
    }

    /** Route, when doors and streams are in order. */
    method RouteInOrder(s: System)
      requires Mirrors(s) && Sound() && InOrder(s) && CanStep(s, Select)
      modifies this`knockCh, this`loop, this`holds
      ensures Mirrors(Advance(s, Select)) && Sound()
    {
      var dest := Route(s);
    }

    /** The muxer's method for a step of the system, if it takes part in it. */
    method Move(st: Step, s: System)
      requires Mirrors(s) && Sound() && InOrder(s) && CanStep(s, st)
      modifies this, made
      ensures Mirrors(Advance(s, st)) && Sound() && old(made) <= made && fresh(made - old(made))
    {
      match st
      case Register(id) => var ch := Listener(id, s);
      case PluginStep(e) =>
        if e.OfListen? && e.l.OpenDoor? {
          AcceptKnock(s.plugin.listeners[e.l.i].id, s, e.l.i);
        }
      case Pop => Receive(s.queue[0], s);
      case Select => RouteInOrder(s);
      case HandOff => Deliver(s);
      case _ =>
    }
  }

  /** The steps from the `i`th on lead from `s` to `end`, with doors and streams in order all the way. */
  ghost predicate Leads(s: System, sts: seq<Step>, i: nat, end: System)
    requires i <= |sts|
    decreases |sts| - i
  {
    if i == |sts| then s == end
    else CanStep(s, sts[i]) && InOrder(s) && Leads(Advance(s, sts[i]), sts, i + 1, end)
  }

  lemma {:induction false} FairLeads(s: System, sts: seq<Step>, i: nat, announced: bool)
    requires i <= |sts| && Invariant(s, announced) && FairRun(s, sts[i..], announced)
    ensures Leads(s, sts, i, Final(s, sts[i..], announced))
    decreases |sts| - i
  {
    if i < |sts| {
      assert sts[i..][0] == sts[i] && sts[i..][1..] == sts[i + 1..];
      if s.loop.Holding? {
        DoorMatches(s, announced);
      }
      InvariantStep(s, sts[i], announced);
      FairLeads(Advance(s, sts[i]), sts, i + 1, announced);
    }
  }

  /** A new muxer, taken through any fair run of both processes: every listener it ever made has been
      handed only streams that were opened for its id. */
  method Drive(tr: Option<Translator>, sts: seq<Step>, ghost announced: bool) returns (m: GRPCServerMuxer)
    requires FairRun(Start(tr), sts, announced)
    ensures fresh(m) && m.Mirrors(Final(Start(tr), sts, announced))
    ensures forall ch :: ch in m.made ==> forall x :: x in ch.handed ==> x == Toward(ch.id)
  {
    m := new GRPCServerMuxer();
    var s := Start(tr);
    InvariantStart(tr, announced);
    assert sts[0..] == sts;
    FairLeads(s, sts, 0, announced);
    for i := 0 to |sts|
      invariant fresh(m) && fresh(m.made) && m.Mirrors(s) && m.Sound()
      invariant Leads(s, sts, i, Final(Start(tr), sts, announced))
    {
      m.Move(sts[i], s);
      s := Advance(s, sts[i]);
    }
  }
}

module ClientMuxer {
  import opened Basics
  import opened Broker
  import opened HostRouting

  /** waitCh has one slot; `token` is whether it is full. */
  class BlockedClientListener {
    const id: Id
    var token: bool

    constructor (id: Id)
      ensures this.id == id && !token
    {
      this.id, token := id, false;
    }
  }

  /** One call of Accept that has taken a token. */
  datatype AcceptCall =
    | Blocked(ln: BlockedClientListener)
    | Returned(ln: BlockedClientListener, stream: Id)

  function BlockedOn(id: Id): AcceptCall -> bool
  {
    (a: AcceptCall) => a.Blocked? && a.ln.id == id
  }

  /** What AcceptKnock's answer does to the gates. */
  lemma {:induction false} KnockAdvances(s: System, i: nat, error: string)
    requires CanStep(s, HostStep(OfListen(OpenDoor(i, error))))
    ensures var s', id := Advance(s, HostStep(OfListen(OpenDoor(i, error)))), s.host.listeners[i].id;
            && s'.popping == s.popping && s'.accepted == s.accepted && s'.acceptListeners == s.acceptListeners
            && s'.gates == (if error != "" then s.gates
                            else s.gates[s.acceptListeners[id] := s.gates[s.acceptListeners[id]].(token := true)])
  {
  }

  class GRPCClientMuxer {
    var acceptListeners: map<Id, BlockedClientListener>
    var accepts: seq<AcceptCall>
    var made: seq<BlockedClientListener>

    /** The Accepts blocked in the session, and the ones that returned with a stream. */
    ghost predicate Calls(s: System)
      reads this
    {
      && (forall id: Id :: CountIf(accepts, BlockedOn(id)) == s.popping[id])
      && (forall k :: 0 <= k < |accepts| && accepts[k].Returned? ==>
            Accepted(accepts[k].stream, accepts[k].ln.id) in s.accepted)
    }

    ghost predicate Mirrors(s: System)
      reads this, made
    {
      && Calls(s)
      && |made| == |s.gates|
      && (forall g :: 0 <= g < |made| ==> made[g].id == s.gates[g].id && made[g].token == s.gates[g].token)
      && (forall g, h :: 0 <= g < h < |made| ==> made[g] != made[h])
      && acceptListeners.Keys == s.acceptListeners.Keys
      && (forall id :: id in acceptListeners ==>
            s.acceptListeners[id] < |made| && acceptListeners[id] == made[s.acceptListeners[id]])
    }

    constructor ()
      ensures (forall tr :: Mirrors(Start(tr))) && made == []
    {
      acceptListeners, accepts, made := map[], [], [];
    }

    method Listener(id: Id, ghost s: System) returns (ln: BlockedClientListener)
      requires Mirrors(s)
      modifies this
      ensures Mirrors(Advance(s, Register(id)))
      ensures fresh(ln) && made == old(made) + [ln]
      ensures ln.id == id && !ln.token && acceptListeners == old(acceptListeners)[id := ln] && accepts == old(accepts)
    {
      ln := new BlockedClientListener(id);
      acceptListeners := acceptListeners[id := ln];
      made := made + [ln];
    }

    /** AcceptKnock: an error without a listener, else a token for the newest listener of the id. */
    method AcceptKnock(id: Id, ghost s: System, ghost i: nat) returns (error: string)
      requires Mirrors(s) && (id in acceptListeners ==> !acceptListeners[id].token)
      requires Enabled(s.host, OfListen(OpenDoor(i, ""))) && s.host.listeners[i].id == id
      modifies made
      ensures CanStep(s, HostStep(OfListen(OpenDoor(i, error))))
      ensures Mirrors(Advance(s, HostStep(OfListen(OpenDoor(i, error)))))
      ensures error == "" <==> id in acceptListeners
      ensures forall g :: 0 <= g < |made| ==>
                made[g].token == (old(made[g].token) || (id in acceptListeners && made[g] == acceptListeners[id]))
    {
      if id !in acceptListeners {
        KnockAdvances(s, i, "no listener for id");
        return "no listener for id";
      }
      KnockAdvances(s, i, "");
      acceptListeners[id].token := true;
      return "";
    }

    /** A listener's Accept, up to the token it waits for. */
    method Accept(ln: BlockedClientListener, ghost s: System, ghost g: nat)
      requires Mirrors(s) && g < |made| && made[g] == ln && ln.token
      modifies this`accepts, ln
      ensures Mirrors(Advance(s, TakeToken(g))) && made == old(made)
      ensures !ln.token && accepts == old(accepts) + [Blocked(ln)]
    {
      forall id: Id ensures CountIf(accepts + [Blocked(ln)], BlockedOn(id)) == Advance(s, TakeToken(g)).popping[id] {
        CountAppend(accepts, Blocked(ln), BlockedOn(id));
      }
      ln.token := false;
      accepts := accepts + [Blocked(ln)];
    }

    /** The session gives a blocked Accept whatever stream comes next. */
    method Return(k: nat, stream: Id, ghost s: System)
      requires Mirrors(s) && k < |accepts| && accepts[k].Blocked? && s.queue != [] && s.queue[0] == stream
      modifies this`accepts
      ensures accepts == old(accepts)[k := Returned(old(accepts)[k].ln, stream)]
      ensures CanStep(s, PopStream(accepts[k].ln.id)) && Mirrors(Advance(s, PopStream(accepts[k].ln.id)))
    {
      var ln := accepts[k].ln;
      CountMember(accepts, k, BlockedOn(ln.id));
      ghost var s' := Advance(s, PopStream(ln.id));
      forall id: Id ensures CountIf(accepts[k := Returned(ln, stream)], BlockedOn(id)) == s'.popping[id] {
        CountUpdate(accepts, k, Returned(ln, stream), BlockedOn(id));
      }
      accepts := accepts[k := Returned(ln, stream)];
    }

    method TakeNext(id: Id, s: System)
      requires Mirrors(s) && CanStep(s, PopStream(id))
      modifies this`accepts
      ensures Mirrors(Advance(s, PopStream(id)))
    {
      ghost var i := CountSome(accepts, BlockedOn(id));
      var k :| 0 <= k < |accepts| && accepts[k].Blocked? && accepts[k].ln.id == id;
      Return(k, s.queue[0], s);
    }

    method HostMoves(e: Event, s: System)
      requires Mirrors(s) && CanStep(s, HostStep(e))
      modifies made
      ensures Mirrors(Advance(s, HostStep(e)))
    {
      if OpensDoor(s, e) {
        var error := AcceptKnock(s.host.listeners[e.l.i].id, s, e.l.i);
      }
    }

    /** The muxer takes no part in the plugin's steps. */
    lemma {:induction false} PluginMoves(e: Event, s: System)
      requires Mirrors(s) && CanStep(s, PluginStep(e))
      ensures Mirrors(Advance(s, PluginStep(e)))
    {
    }

    /** The muxer's method for a step of the system, if it takes part in it. */
    method Move(st: Step, s: System)
      requires Mirrors(s) && CanStep(s, st)
      modifies this, made
      ensures Mirrors(Advance(s, st)) && old(made) <= made
      ensures forall g :: |old(made)| <= g < |made| ==> fresh(made[g])
    {
      match st
      case Register(id) => var ln := Listener(id, s);
      case HostStep(e) => HostMoves(e, s);
      case TakeToken(g) => Accept(made[g], s, g);
      case PopStream(id) => TakeNext(id, s);
      case PluginStep(e) => PluginMoves(e, s);
    }
  }

  /** A new muxer, taken through any run in which a knock waits until the knocks for other ids are settled:
      every Accept that returned got a stream that was opened for its listener's id. */
  method Drive(tr: Option<Translator>, sts: seq<Step>) returns (m: GRPCClientMuxer)
    requires Legal(Start(tr), sts) && Sequential(Start(tr), sts)
    ensures fresh(m) && m.Mirrors(Final(Start(tr), sts))
    ensures forall k :: 0 <= k < |m.accepts| && m.accepts[k].Returned? ==> m.accepts[k].stream == m.accepts[k].ln.id
  {
    m := new GRPCClientMuxer();
    var s := Start(tr);
    for i := 0 to |sts|
      invariant fresh(m) && (forall g :: 0 <= g < |m.made| ==> fresh(m.made[g])) && m.Mirrors(s)
      invariant Legal(s, sts[i..]) && Final(s, sts[i..]) == Final(Start(tr), sts)
    {
      assert sts[i..][0] == sts[i] && sts[i..][1..] == sts[i + 1..];
      m.Move(sts[i], s);
      s := Advance(s, sts[i]);
    }
    SequentialStreamsReachTheirListener(tr, sts);
  }
}
