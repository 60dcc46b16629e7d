/**
 GRPCBroker as the object it is: the tables, the entries and the place and locals of every goroutine
 are fields that each lock region or channel operation updates in place.  Every method keeps the
 invariant of the model and takes the model's step, so that driving the object through any
 interleaving gives the model's results about the object's own fields.
*/
module BrokerObject {
  import opened Basics
  import opened Broker
  import opened BrokerSafety
  import opened BrokerPanic

  class GRPCBroker {
    const mux: bool
    const translator: Option<Translator>
    var pending: seq<Pending>
    var clientStreams: map<Id, Ref>
    var serverStreams: map<Id, Ref>
    var run: RunAt
    var reapers: multiset<(Id, Ref)>
    var dials: multiset<DialAt>
    var dialer: DialerAt
    var listeners: seq<Listener>
    var panicked: bool
    ghost var log: Log

    ghost function Snapshot(): State
      reads this
    {
      State(mux, translator, Tables(pending, clientStreams, serverStreams), run, reapers, dials, dialer, listeners, log, panicked)
    }

    ghost predicate Valid()
      reads this
    {
      Safe(Snapshot())
    }

    constructor (mux: bool, translator: Option<Translator>)
      ensures Valid() && Snapshot() == Init(mux, translator)
    {
      this.mux, this.translator := mux, translator;
      pending, clientStreams, serverStreams := [], map[], map[];
      run, reapers, dials, dialer, listeners := Receiving, multiset{}, multiset{}, Unlocked, [];
      panicked, log := false, Init(mux, translator).log;
      SafeInit(mux, translator);
    }

    /** getClientStream: under the lock, the id's entry or a new one. */
    method GetClientStream(id: Id) returns (p: Ref)
      modifies this`pending, this`clientStreams
      ensures (Tables(pending, clientStreams, serverStreams), p) ==
              GetClient(old(Tables(pending, clientStreams, serverStreams)), id)
      ensures p == (if id in old(clientStreams) then old(clientStreams)[id] else |old(pending)|)
      ensures clientStreams == old(clientStreams)[id := p]
      ensures pending == old(pending) + (if id in old(clientStreams) then [] else [Pending(id, false, None, false)])
    {
      if id in clientStreams {
        p := clientStreams[id];
      } else {
        p := |pending|;
        pending := pending + [Pending(id, false, None, false)];
        clientStreams := clientStreams[id := p];
      }
    }

    /** getServerStream. */
    method GetServerStream(id: Id) returns (p: Ref)
      modifies this`pending, this`serverStreams
      ensures (Tables(pending, clientStreams, serverStreams), p) ==
              GetServer(old(Tables(pending, clientStreams, serverStreams)), id)
      ensures p == (if id in old(serverStreams) then old(serverStreams)[id] else |old(pending)|)
      ensures serverStreams == old(serverStreams)[id := p]
      ensures pending == old(pending) + (if id in old(serverStreams) then [] else [Pending(id, true, None, false)])
    {
      if id in serverStreams {
        p := serverStreams[id];
      } else {
        p := |pending|;
        pending := pending + [Pending(id, true, None, false)];
        serverStreams := serverStreams[id := p];
      }
    }

    // -------------------------------------------------------------- Run and timeoutWait

    method RunRoute()
      requires Valid() && Enabled(Snapshot(), OfRun(Route))
      modifies this`pending, this`clientStreams, this`serverStreams, this`run
      ensures Valid() && Snapshot() == Next(old(Snapshot()), OfRun(Route))
      ensures run.Queueing? && run.msg == old(run.msg)
      ensures if run.msg.knock.Some? && run.msg.knock.value.knock && !run.msg.knock.value.ack
              then serverStreams == old(serverStreams)[run.msg.serviceId := run.p] && clientStreams == old(clientStreams)
              else clientStreams == old(clientStreams)[run.msg.serviceId := run.p] && serverStreams == old(serverStreams)
    {
      SafeStep(Snapshot(), OfRun(Route));
      var msg, p := run.msg, 0;
      var serverKnock := msg.knock.Some? && msg.knock.value.knock && !msg.knock.value.ack;
      if serverKnock {
        p := GetServerStream(msg.serviceId);
      } else {
        p := GetClientStream(msg.serviceId);
      }
      run := Queueing(msg, p);
    }

    /** The send of Run's select, and its default branch, which drops the message. */
    method RunQueue()
      requires Valid() && Enabled(Snapshot(), OfRun(Queue))
      modifies this`pending, this`run, this`log
      ensures Valid() && Snapshot() == Next(old(Snapshot()), OfRun(Queue))
      ensures var p, msg := old(run.p), old(run.msg);
              if old(pending[p].ch.None?) then
                && pending == old(pending)[p := old(pending[p]).(ch := Some(msg))]
                && run == (if IsKnock(msg) then Receiving else Spawning(msg.serviceId, p))
              else pending == old(pending) && run.Receiving?
    {
      SafeStep(Snapshot(), OfRun(Queue));
      var msg, p := run.msg, run.p;
      if pending[p].ch.None? {
        pending := pending[p := pending[p].(ch := Some(msg))];
        run := if IsKnock(msg) then Receiving else Spawning(msg.serviceId, p);
      } else {
        run := Receiving;
        log := log.(knockDrops := log.knockDrops + One(IsKnock(msg), msg.serviceId),
                    ackDrops := log.ackDrops + One(IsAdmission(msg), msg.serviceId));
      }
    }

    /** timeoutWait once its entry is done or the time is up. */
    method TimeoutWait(id: Id, p: Ref)
      requires Valid() && Enabled(Snapshot(), OfRun(Reap(id, p)))
      modifies this`clientStreams, this`reapers
      ensures Valid() && Snapshot() == Next(old(Snapshot()), OfRun(Reap(id, p)))
      ensures clientStreams == old(clientStreams) - {id} && reapers == old(reapers) - multiset{(id, p)}
    {
      SafeStep(Snapshot(), OfRun(Reap(id, p)));
      clientStreams := clientStreams - {id};
      reapers := reapers - multiset{(id, p)};
    }

    /** Receiving and spawning only move Run on. */
    method MoveRun(e: RunEvent)
      requires Valid() && Enabled(Snapshot(), OfRun(e)) && (e.Recv? || e.RecvFails? || e.Spawn?)
      modifies this`run, this`reapers, this`log
      ensures Valid() && Snapshot() == Next(old(Snapshot()), OfRun(e))
      ensures e.Recv? ==> run == Routing(e.msg) && reapers == old(reapers) && log.received == old(log.received) + [e.msg]
      ensures e.RecvFails? ==> run.Stopped? && reapers == old(reapers) && log == old(log)
      ensures e.Spawn? ==> run.Receiving? && reapers == old(reapers) + multiset{(old(run.id), old(run.p))} && log == old(log)
    {
      SafeStep(Snapshot(), OfRun(e));
      match e {
        case RecvFails => run := Stopped;
        case Spawn => run, reapers := Receiving, reapers + multiset{(run.id, run.p)};
        case Recv(msg) => run, log := Routing(msg), log.(received := log.received + [msg]);
      }
    }

    method StepRun(e: RunEvent)
      requires Valid() && Enabled(Snapshot(), OfRun(e))
      modifies this
      ensures Valid() && Snapshot() == Next(old(Snapshot()), OfRun(e))
    {
      if e.Route? {
        RunRoute();
      } else if e.Queue? {
        RunQueue();
      } else if e.Reap? {
        TimeoutWait(e.id, e.p);
      } else {
        MoveRun(e);
      }
    }

    // -------------------------------------------------------------- without multiplexing

    method DialStream(id: Id)
      requires Valid() && Enabled(Snapshot(), OfDial(DialStart(id)))
      modifies this`pending, this`clientStreams, this`dials
      ensures Valid() && Snapshot() == Next(old(Snapshot()), OfDial(DialStart(id)))
      ensures id in clientStreams && dials == old(dials) + multiset{DialWaiting(id, clientStreams[id])}
    {
      SafeStep(Snapshot(), OfDial(DialStart(id)));
      var p := GetClientStream(id);
      dials := dials + multiset{DialWaiting(id, p)};
    }

    method TakeMessage(id: Id, p: Ref) returns (c: ConnInfo)
      requires DialEnabled(Snapshot(), DialTake(id, p))
      modifies this`pending, this`dials, this`log
      ensures Snapshot() == DialNext(old(Snapshot()), DialTake(id, p)) && DialTook(id, p, c) in dials
      ensures old(pending[p].ch) == Some(c) && pending == old(pending)[p := old(pending[p]).(ch := None)]
      ensures dials == old(dials) - multiset{DialWaiting(id, p)} + multiset{DialTook(id, p, c)}
    {
      c := pending[p].ch.value;
      pending := pending[p := pending[p].(ch := None)];
      dials := dials - multiset{DialWaiting(id, p)} + multiset{DialTook(id, p, c)};
      log := log.(ackDrops := log.ackDrops + One(IsAdmission(c), c.serviceId));
    }

    method DialReceive(id: Id, p: Ref) returns (c: ConnInfo)
      requires Valid() && Enabled(Snapshot(), OfDial(DialTake(id, p)))
      modifies this`pending, this`dials, this`log
      ensures Valid() && Snapshot() == Next(old(Snapshot()), OfDial(DialTake(id, p))) && DialTook(id, p, c) in dials
      ensures old(pending[p].ch) == Some(c) && pending == old(pending)[p := old(pending[p]).(ch := None)]
      ensures dials == old(dials) - multiset{DialWaiting(id, p)} + multiset{DialTook(id, p, c)}
    {
      SafeStep(Snapshot(), OfDial(DialTake(id, p)));
      c := TakeMessage(id, p);
    }

    /** The address of a message as this side dials it: translated, and of a known network. */
    method ResolveTarget(c: ConnInfo) returns (r: Result<NetAddr, string>)
      ensures DialTarget(translator, c) == if r.Ok? then Some(r.value) else None
      ensures var at := (c.network, c.address);
              var to := if translator.Some? then translator.value.pluginToHost(at) else Some(at);
              if to.Some? && (to.value.0 == "tcp" || to.value.0 == "unix") then r == Ok(to.value) else r.Err?
    {
      var at := (c.network, c.address);
      if translator.Some? {
        var translated := translator.value.pluginToHost(at);
        if translated.None? { return Err("untranslatable address"); }
        at := translated.value;
      }
      if at.0 != "tcp" && at.0 != "unix" { return Err("unknown address type"); }
      return Ok(at);
    }

    method FinishDial(id: Id, p: Ref, c: ConnInfo) returns (r: Result<NetAddr, string>)
      requires DialEnabled(Snapshot(), DialFinish(id, p, c))
      modifies this`pending, this`dials, this`panicked, this`log
      ensures Snapshot() == DialFinishStep(old(Snapshot()), id, p, c)
      ensures if old(pending[p].done) then r.Err? else DialTarget(translator, c) == if r.Ok? then Some(r.value) else None
      ensures !old(pending[p].done) ==> !panicked || old(panicked)
      ensures log.dialled == old(log.dialled) + if r.Ok? then [Dialled(id, r.value, c)] else []
    {
      if pending[p].done {
        panicked := true;
        return Err("close of closed channel");
      }
      pending := pending[p := pending[p].(done := true)];
      dials := dials - multiset{DialTook(id, p, c)};
      r := ResolveTarget(c);
      if r.Ok? {
        log := log.(dialled := log.dialled + [Dialled(id, r.value, c)]);
      }
    }

    /** Dial after its receive: close the done channel, and then use the address. */
    method DialComplete(id: Id, p: Ref, c: ConnInfo) returns (r: Result<NetAddr, string>)
      requires Valid() && Enabled(Snapshot(), OfDial(DialFinish(id, p, c)))
      modifies this`pending, this`dials, this`panicked, this`log
      ensures Valid() && Snapshot() == Next(old(Snapshot()), OfDial(DialFinish(id, p, c)))
      ensures if panicked then r.Err? else DialTarget(translator, c) == if r.Ok? then Some(r.value) else None
      ensures panicked <==> old(pending[p].done)
      ensures !panicked ==>
                && pending == old(pending)[p := old(pending[p]).(done := true)]
                && dials == old(dials) - multiset{DialTook(id, p, c)}
      ensures log.dialled == old(log.dialled) + if r.Ok? then [Dialled(id, r.value, c)] else []
    {
      SafeStep(Snapshot(), OfDial(DialFinish(id, p, c)));
      r := FinishDial(id, p, c);
    }

    method DialReap(id: Id, p: Ref)
      requires Valid() && Enabled(Snapshot(), OfDial(DialTimeout(id, p)))
      modifies this`clientStreams, this`dials
      ensures Valid() && Snapshot() == Next(old(Snapshot()), OfDial(DialTimeout(id, p)))
      ensures clientStreams == old(clientStreams) - {id} && dials == old(dials) - multiset{DialWaiting(id, p)}
    {
      SafeStep(Snapshot(), OfDial(DialTimeout(id, p)));
      clientStreams := clientStreams - {id};
      dials := dials - multiset{DialWaiting(id, p)};
    }

    /** Accept once its socket is bound to `at`; `ok` is what the streamer's Send answers. */
    method AcceptAdvertise(id: Id, at: NetAddr, ok: bool) returns (accepted: bool)
      requires Valid() && Enabled(Snapshot(), OfDial(AcceptAddr(id, at, ok)))
      modifies this`log
      ensures Valid() && Snapshot() == Next(old(Snapshot()), OfDial(AcceptAddr(id, at, ok)))
      ensures accepted == (ok && Advertised(translator, at).Some?)
      ensures var to := if translator.Some? then translator.value.hostToPlugin(at) else Some(at);
              && (accepted <==> ok && to.Some?)
              && log.sent == old(log.sent) + (if accepted then [ConnInfo(id, to.value.0, to.value.1, None)] else [])
              && log.adverts == old(log.adverts) + (if accepted then [Advert(id, at)] else [])
    {
      SafeStep(Snapshot(), OfDial(AcceptAddr(id, at, ok)));
      var to := at;
      if translator.Some? {
        var translated := translator.value.hostToPlugin(at);
        if translated.None? { return false; }
        to := translated.value;
      }
      accepted := ok;
      if ok {
        log := log.(sent := log.sent + [AddrMsg(id, to)], adverts := log.adverts + [Advert(id, at)]);
      }
    }

    method StepDial(e: DialEvent)
      requires Valid() && Enabled(Snapshot(), OfDial(e))
      modifies this
      ensures Valid() && Snapshot() == Next(old(Snapshot()), OfDial(e))
    {
      match e {
        case DialStart(id) => DialStream(id);
        case DialTake(id, p) => var c := DialReceive(id, p);
        case DialFinish(id, p, msg) => var r := DialComplete(id, p, msg);
        case DialTimeout(id, p) => DialReap(id, p);
        case AcceptAddr(id, at, ok) => var accepted := AcceptAdvertise(id, at, ok);
      }
    }

    // -------------------------------------------------------------- muxDial and knock

    method KnockStream()
      requires Valid() && Enabled(Snapshot(), OfKnock(AwaitAck))
      modifies this`pending, this`clientStreams, this`dialer
      ensures Valid() && Snapshot() == Next(old(Snapshot()), OfKnock(AwaitAck))
      ensures old(dialer.id) in clientStreams && dialer == Awaiting(old(dialer.id), clientStreams[old(dialer.id)])
    {
      SafeStep(Snapshot(), OfKnock(AwaitAck));
      var p := GetClientStream(dialer.id);
      dialer := Awaiting(dialer.id, p);
    }

    /** knock's receive with its three checks, in the source's order. */
    method KnockReceive() returns (admitted: bool)
      requires Valid() && Enabled(Snapshot(), OfKnock(TakeAck))
      modifies this`pending, this`dialer, this`log
      ensures Valid() && Snapshot() == Next(old(Snapshot()), OfKnock(TakeAck))
      ensures admitted <==> dialer.Admitted?
      ensures pending == old(pending)[old(dialer.p) := old(pending[dialer.p]).(ch := None)]
      ensures var m := old(pending[dialer.p].ch.value);
              dialer == if m.serviceId == old(dialer.id) && m.knock == Some(Knock(true, true, "")) then Admitted(old(dialer.id))
                        else Unlocked
      ensures log.admitted == old(log.admitted) + if admitted then multiset{old(dialer.id)} else multiset{}
    {
      SafeStep(Snapshot(), OfKnock(TakeAck));
      var id, msg := dialer.id, pending[dialer.p].ch.value;
      pending := pending[dialer.p := pending[dialer.p].(ch := None)];
      dialer := Unlocked;
      if msg.serviceId != id { return false; }
      if msg.knock.None? || !msg.knock.value.knock || !msg.knock.value.ack { return false; }
      if msg.knock.value.error != "" { return false; }
      dialer := Admitted(id);
      log := log.(admitted := log.admitted + One(true, id));
      return true;
    }

    method KnockReap()
      requires Valid() && Enabled(Snapshot(), OfKnock(KnockTimeout))
      modifies this`clientStreams, this`dialer
      ensures Valid() && Snapshot() == Next(old(Snapshot()), OfKnock(KnockTimeout))
      ensures clientStreams == old(clientStreams) - {old(dialer.id)} && dialer.Unlocked?
    {
      SafeStep(Snapshot(), OfKnock(KnockTimeout));
      clientStreams := clientStreams - {dialer.id};
      dialer := Unlocked;
    }

    /** Any step of the multiplexed dialer; locking, knocking and dialing only move it on. */
    method StepKnock(e: KnockEvent)
      requires Valid() && Enabled(Snapshot(), OfKnock(e))
      modifies this
      ensures Valid() && Snapshot() == Next(old(Snapshot()), OfKnock(e))
      ensures match e
              case Lock(id) => dialer == Locked(id) && log == old(log)
              case OpenStream(_) => dialer.Unlocked? && log == old(log)
              case SendKnock(ok) =>
                && dialer == (if ok then Knocked(old(dialer.id)) else Unlocked)
                && log.sent == old(log.sent) +
                     (if ok then [ConnInfo(old(dialer.id), "", "", Some(Knock(true, false, "")))] else [])
              case _ => true
    {
      SafeStep(Snapshot(), OfKnock(e));
      match e {
        case AwaitAck => KnockStream();
        case TakeAck => var admitted := KnockReceive();
        case KnockTimeout => KnockReap();
        case Lock(id) => dialer := Locked(id);
        case OpenStream(_) => dialer := Unlocked;
        case SendKnock(ok) =>
          if ok {
            log := log.(sent := log.sent + [KnockMsg(dialer.id)]);
          }
          dialer := if ok then Knocked(dialer.id) else Unlocked;
      }
    }

    // -------------------------------------------------------------- Accept and listenForKnocks

    method AcceptStream(id: Id)
      requires Valid() && Enabled(Snapshot(), OfListen(AcceptMux(id)))
      modifies this`pending, this`serverStreams, this`listeners
      ensures Valid() && Snapshot() == Next(old(Snapshot()), OfListen(AcceptMux(id)))
      ensures id in serverStreams && listeners == old(listeners) + [Listener(id, serverStreams[id], Starting)]
    {
      SafeStep(Snapshot(), OfListen(AcceptMux(id)));
      var p := GetServerStream(id);
      listeners := listeners + [Listener(id, p, Starting)];
    }

    method ListenStream(i: nat)
      requires Valid() && Enabled(Snapshot(), OfListen(ListenStart(i)))
      modifies this`pending, this`serverStreams, this`listeners
      ensures Valid() && Snapshot() == Next(old(Snapshot()), OfListen(ListenStart(i)))
      ensures old(listeners[i].id) in serverStreams
      ensures listeners == old(listeners)[i := old(listeners[i]).(at := Waiting(serverStreams[old(listeners[i].id)]))]
    {
      SafeStep(Snapshot(), OfListen(ListenStart(i)));
      var p := GetServerStream(listeners[i].id);
      listeners := listeners[i := listeners[i].(at := Waiting(p))];
    }

    /** listenForKnocks' receive and its two "impossible" checks, which never fail. */
    method ListenReceive(i: nat) returns (ok: bool)
      requires Valid() && Enabled(Snapshot(), OfListen(ListenTake(i)))
      modifies this`pending, this`listeners
      ensures Valid() && Snapshot() == Next(old(Snapshot()), OfListen(ListenTake(i)))
      ensures ok
      ensures var p := old(listeners[i].at.p);
              && pending == old(pending)[p := old(pending[p]).(ch := None)]
              && listeners == old(listeners)[i := old(listeners[i]).(at := Opening(p))]
    {
      SafeStep(Snapshot(), OfListen(ListenTake(i)));
      assert ListenerOk(pending, listeners[i]);
      var id, p := listeners[i].id, listeners[i].at.p;
      var msg := pending[p].ch.value;
      assert SlotOk(pending[p]);
      pending := pending[p := pending[p].(ch := None)];
      ok := msg.serviceId == id && msg.knock.Some? && msg.knock.value.knock && !msg.knock.value.ack;
      listeners := listeners[i := listeners[i].(at := if ok then Opening(p) else Refused)];
    }

    /** The listener's Close: mark the entry done once, whoever closes first ... */
    method CloseMark(i: nat)
      requires Valid() && Enabled(Snapshot(), OfListen(CloseDoor(i)))
      modifies this`pending
      ensures Valid() && Snapshot() == Next(old(Snapshot()), OfListen(CloseDoor(i)))
      ensures var p := listeners[i].entry; pending == old(pending)[p := old(pending[p]).(done := true)]
    {
      SafeStep(Snapshot(), OfListen(CloseDoor(i)));
      var p := listeners[i].entry;
      pending := pending[p := pending[p].(done := true)];
    }

    /** ... and then forget the id. */
    method CloseForget(i: nat)
      requires Valid() && Enabled(Snapshot(), OfListen(Forget(i)))
      modifies this`serverStreams
      ensures Valid() && Snapshot() == Next(old(Snapshot()), OfListen(Forget(i)))
      ensures serverStreams == old(serverStreams) - {listeners[i].id}
    {
      SafeStep(Snapshot(), OfListen(Forget(i)));
      serverStreams := serverStreams - {listeners[i].id};
    }

    /** A step of a listener between its receive and its next one, which only moves it on. */
    method MoveListener(e: ListenEvent)
      requires Valid() && Enabled(Snapshot(), OfListen(e)) && (e.OpenDoor? || e.SendAck? || e.ListenDone?)
      modifies this`listeners, this`log
      ensures Valid() && Snapshot() == Next(old(Snapshot()), OfListen(e))
      ensures var l := old(listeners[e.i]);
              match e
              case OpenDoor(i, error) =>
                && listeners == old(listeners)[i := l.(at := Acking(l.at.p, error))] && log.sent == old(log.sent)
                && log.doors == old(log.doors) + (if error == "" then multiset{l.id} else multiset{})
              case SendAck(i, ok) =>
                && listeners == old(listeners)[i := l.(at := if ok then Waiting(l.at.p) else Exited)]
                && log.doors == old(log.doors)
                && log.sent == old(log.sent) + (if ok then [ConnInfo(l.id, "", "", Some(Knock(true, true, l.at.error)))] else [])
              case _ => listeners == old(listeners)[e.i := l.(at := Exited)] && log == old(log)
    {
      SafeStep(Snapshot(), OfListen(e));
      var l := listeners[e.i];
      match e {
        case OpenDoor(i, error) =>
          log := log.(doors := log.doors + One(error == "", l.id), refused := log.refused + One(error != "", l.id));
          listeners := listeners[i := l.(at := Acking(l.at.p, error))];
        case SendAck(i, ok) =>
          log := if ok then log.(sent := log.sent + [AckMsg(l.id, l.at.error)])
                 else log.(ackFails := log.ackFails + One(l.at.error == "", l.id));
          listeners := listeners[i := l.(at := if ok then Waiting(l.at.p) else Exited)];
        case ListenDone(i) => listeners := listeners[i := l.(at := Exited)];
      }
    }

    method StepListen(e: ListenEvent)
      requires Valid() && Enabled(Snapshot(), OfListen(e))
      modifies this
      ensures Valid() && Snapshot() == Next(old(Snapshot()), OfListen(e))
    {
      match e {
        case AcceptMux(id) => AcceptStream(id);
        case ListenStart(i) => ListenStream(i);
        case ListenTake(i) => var ok := ListenReceive(i);
        case CloseDoor(i) => CloseMark(i);
        case Forget(i) => CloseForget(i);
        case OpenDoor(_, _) => MoveListener(e);
        case SendAck(_, _) => MoveListener(e);
        case ListenDone(_) => MoveListener(e);
      }
    }

    // -------------------------------------------------------------- any interleaving

    method Step(e: Event)
      requires Valid() && Enabled(Snapshot(), e)
      modifies this
      ensures Valid() && Snapshot() == Next(old(Snapshot()), e)
    {
      match e {
        case OfRun(r) => StepRun(r);
        case OfDial(d) => StepDial(d);
        case OfKnock(k) => StepKnock(k);
        case OfListen(l) => StepListen(l);
      }
    }

    /** The object, driven through any interleaving: no entry leaks, no listener meets a message it
        cannot explain, and without a second read of an entry, or with one Dial of each id, nothing panics. */
    method Drive(es: seq<Event>)
      requires Snapshot() == Init(mux, translator) && Runs(Snapshot(), es)
      modifies this
      ensures Valid() && Snapshot() == After(old(Snapshot()), es)
      ensures Idle(Snapshot()) ==> clientStreams == map[]
      ensures forall i :: 0 <= i < |listeners| ==> !listeners[i].at.Refused?
      ensures FreshReads(old(Snapshot()), es) || DialsEachOnce(es) ==> !panicked
    {
      SafeInit(mux, translator);
      for i := 0 to |es|
        invariant Valid() && Runs(Snapshot(), es[i..])
        invariant After(Snapshot(), es[i..]) == After(old(Snapshot()), es)
      {
        assert es[i..][0] == es[i] && es[i..][1..] == es[i + 1..];
        Step(es[i]);
      }
      if Idle(Snapshot()) {
        IdleIsEmpty(Snapshot());
      }
      if FreshReads(old(Snapshot()), es) {
        FreshReadsNeverPanic(mux, translator, es);
      }
      if DialsEachOnce(es) {
        DialingEachIdOnceNeverPanics(mux, translator, es);
      }
    }
  }
}
