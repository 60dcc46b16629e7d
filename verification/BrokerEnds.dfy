/** What can still end in a GRPCBroker: calls can, in every state; a goroutine that listens for knocks
    cannot if nobody's Close leads to the entry it waits on. */
module BrokerEnds {
  import opened Basics
  import opened Broker
  import opened BrokerSafety

  // ---------------------------------------------------------------- every call can end

  /** Only a broker without multiplexing has Dials, and only one with it a dialer that knocks. */
  predicate Moded(s: State)
  {
    (s.mux ==> s.dials == multiset{}) && (!s.mux ==> s.dialer.Unlocked?)
  }

  lemma {:induction false} ModedStep(s: State, e: Event)
    requires Moded(s) && Enabled(s, e)
    ensures Moded(Next(s, e))
  {
    match e
    case OfRun(r) =>
      match r { case Recv(_) => case RecvFails => case Route => case Queue => case Spawn => case Reap(_, _) => }
    case OfDial(_) => case OfKnock(_) =>
    case OfListen(l) => ListenKeepsCalls(s, l);
  }

  lemma {:induction false} ListenKeepsCalls(s: State, e: ListenEvent)
    requires ListenEnabled(s, e)
    ensures var s' := ListenNext(s, e); s'.mux == s.mux && s'.dials == s.dials && s'.dialer == s.dialer
  {
    match e
    case AcceptMux(_) => case ListenStart(_) => case ListenTake(_) => case OpenDoor(_, _) => case SendAck(_, _) =>
    case ListenDone(_) => case CloseDoor(_) => case Forget(_) =>
  }

  lemma {:induction false} ModedRun(s: State, es: seq<Event>)
    requires Moded(s) && Runs(s, es)
    ensures Moded(After(s, es))
    decreases es
  {
    if es != [] {
      ModedStep(s, es[0]);
      ModedRun(Next(s, es[0]), es[1..]);
    }
  }

  function RunWork(r: RunAt): nat
  {
    match r case Queueing(_, _) => 3 case Spawning(_, _) => 2 case _ => 0
  }

  function DialerWork(d: DialerAt): nat
  {
    match d case Unlocked => 0 case Knocked(_) => 2 case _ => 1
  }

  /** What is left to do until no call is under way. */
  function Work(s: State): nat
  {
    RunWork(s.run) + DialerWork(s.dialer) + |s.dials| + |s.reapers|
  }

  /** No call of Dial is under way but those that have their address. */
  ghost predicate NoCalls(s: State)
  {
    Idle(s) && s.dialer.Unlocked?
  }

  lemma {:induction false} RunGoesOn(s: State) returns (e: Event)
    requires Separated(s) && !s.panicked && RunWork(s.run) > 0
    ensures Enabled(s, e) && Work(Next(s, e)) < Work(s) && !Next(s, e).panicked
  {
    e := OfRun(if s.run.Queueing? then Queue else Spawn);
  }

  lemma {:induction false} DialerGoesOn(s: State) returns (e: Event)
    requires Moded(s) && !s.panicked && !s.dialer.Unlocked?
    ensures Enabled(s, e) && Work(Next(s, e)) < Work(s) && !Next(s, e).panicked
  {
    e := OfKnock(match s.dialer
                 case Locked(_) => SendKnock(false)
                 case Knocked(_) => AwaitAck
                 case Admitted(_) => OpenStream(false)
                 case _ => KnockTimeout);
  }

  lemma {:induction false} WaiterGoesOn(s: State) returns (e: Event)
    requires Moded(s) && !s.panicked && RunWork(s.run) == 0 && s.dialer.Unlocked? && !Idle(s)
    ensures Enabled(s, e) && Work(Next(s, e)) < Work(s) && !Next(s, e).panicked
  {
    if r :| r in s.reapers {
      e := OfRun(Reap(r.0, r.1));
    } else {
      var d :| d in s.dials && d.DialWaiting?;
      e := OfDial(DialTimeout(d.id, d.p));
    }
  }

  lemma {:induction false} Finish(s: State) returns (es: seq<Event>)
    requires Safe(s) && Moded(s) && !s.panicked
    ensures Runs(s, es) && NoCalls(After(s, es)) && Safe(After(s, es))
    decreases Work(s)
  {
    es := [];
    if !NoCalls(s) {
      var e;
      if RunWork(s.run) > 0 {
        e := RunGoesOn(s);
      } else if !s.dialer.Unlocked? {
        e := DialerGoesOn(s);
      } else {
        e := WaiterGoesOn(s);
      }
      SafeStep(s, e);
      ModedStep(s, e);
      var rest := Finish(Next(s, e));
      RunsPrepend(s, e, rest);
      es := [e] + rest;
    }
  }

  /** In every run that has not panicked, whatever the peer does: every call can still end, and then no
      pending entry is left. */
  lemma {:induction false} CallsCanAlwaysEnd(mux: bool, translator: Option<Translator>, es: seq<Event>) returns (more: seq<Event>)
    requires Runs(Init(mux, translator), es) && !After(Init(mux, translator), es).panicked
    ensures var s := After(Init(mux, translator), es);
            Runs(s, more) && NoCalls(After(s, more)) && After(s, more).tables.clientStreams == map[]
  {
    var s := After(Init(mux, translator), es);
    SafeInit(mux, translator);
    SafeRun(Init(mux, translator), es);
    ModedRun(Init(mux, translator), es);
    more := Finish(s);
    IdleIsEmpty(After(s, more));
  }

  // ---------------------------------------------------------------- when the stream ends

  lemma {:induction false} StoppedStep(s: State, e: Event)
    requires s.run.Stopped? && Enabled(s, e)
    ensures Next(s, e).run.Stopped? && Next(s, e).log.received == s.log.received
  {
    match e
    case OfRun(_) => case OfDial(_) => case OfKnock(_) =>
    case OfListen(l) =>
      match l
      case AcceptMux(_) => case ListenStart(_) => case ListenTake(_) => case OpenDoor(_, _) => case SendAck(_, _) =>
      case ListenDone(_) => case CloseDoor(_) => case Forget(_) =>
  }

  lemma {:induction false} StoppedForGood(s: State, es: seq<Event>)
    requires s.run.Stopped? && Runs(s, es)
    ensures After(s, es).run.Stopped? && After(s, es).log.received == s.log.received
    decreases es
  {
    if es != [] {
      StoppedStep(s, es[0]);
      StoppedForGood(Next(s, es[0]), es[1..]);
    }
  }

  /** Whenever Run waits for a message the stream may end; Run then receives nothing in any continuation. */
  lemma {:induction false} StreamEnds(s: State, es: seq<Event>)
    requires s.run.Receiving? && !s.panicked && Runs(s.(run := Stopped), es)
    ensures Enabled(s, OfRun(RecvFails)) && Runs(s, [OfRun(RecvFails)] + es)
    ensures After(s, [OfRun(RecvFails)] + es).log.received == s.log.received
  {
    RunsPrepend(s, OfRun(RecvFails), es);
    StoppedForGood(Next(s, OfRun(RecvFails)), es);
  }

  // ---------------------------------------------------------------- listening for knocks can be endless

  /** No further Accept, and no knock from the peer. */
  predicate NoNews(es: seq<Event>)
  {
    forall e | e in es :: !(e.OfListen? && e.l.AcceptMux?) && !(e.OfRun? && e.r.Recv? && IsKnock(e.r.msg))
  }

  /** Listener `i` waits on entry `p`, in which there is nothing and nothing is about to be. */
  ghost predicate Waits(s: State, i: nat, p: Ref)
  {
    && i < |s.listeners| && s.listeners[i].at == Waiting(p) && p < |s.tables.heap| && s.tables.heap[p].ch.None?
    && s.tables.heap[p].knocks && !(s.run.Routing? && IsKnock(s.run.msg)) && !(s.run.Queueing? && IsKnock(s.run.msg))
  }

  /** Some listener's Close marks entry `p`. */
  ghost predicate Closable(s: State, p: Ref)
  {
    exists j :: 0 <= j < |s.listeners| && s.listeners[j].entry == p
  }

  ghost predicate Stuck(s: State, i: nat, p: Ref)
  {
    Waits(s, i, p) && !s.tables.heap[p].done && !Closable(s, p)
  }

  lemma {:induction false} StuckRun(s: State, e: RunEvent, i: nat, p: Ref)
    requires Separated(s) && Stuck(s, i, p) && RunEnabled(s, e) && !(e.Recv? && IsKnock(e.msg))
    ensures Stuck(RunNext(s, e), i, p)
  {
    match e
    case Recv(_) => case RecvFails => case Route => case Queue => case Spawn => case Reap(_, _) =>
  }

  lemma {:induction false} StuckDial(s: State, e: DialEvent, i: nat, p: Ref)
    requires Separated(s) && Stuck(s, i, p) && DialEnabled(s, e)
    ensures Stuck(DialNext(s, e), i, p)
  {
    match e
    case DialTake(id, q) => assert DialOk(s.tables.heap, DialWaiting(id, q));
    case DialFinish(id, q, m) => assert DialOk(s.tables.heap, DialTook(id, q, m));
    case DialStart(_) => case DialTimeout(_, _) => case AcceptAddr(_, _, _) =>
  }

  lemma {:induction false} StuckKnock(s: State, e: KnockEvent, i: nat, p: Ref)
    requires Separated(s) && Stuck(s, i, p) && KnockEnabled(s, e)
    ensures Stuck(KnockNext(s, e), i, p)
  {
    match e
    case Lock(_) => case SendKnock(_) => case AwaitAck => case TakeAck => case KnockTimeout => case OpenStream(_) =>
  }

  lemma {:induction false} EntriesStay(s: State, e: ListenEvent)
    requires ListenEnabled(s, e) && !e.AcceptMux?
    ensures |ListenNext(s, e).listeners| == |s.listeners|
    ensures forall j :: 0 <= j < |s.listeners| ==> ListenNext(s, e).listeners[j].entry == s.listeners[j].entry
  {
    match e
    case ListenStart(_) => case ListenTake(_) => case OpenDoor(_, _) => case SendAck(_, _) => case ListenDone(_) =>
    case CloseDoor(_) => case Forget(_) =>
  }

  lemma {:induction false} StuckListen(s: State, e: ListenEvent, i: nat, p: Ref)
    requires Separated(s) && Stuck(s, i, p) && ListenEnabled(s, e) && !e.AcceptMux?
    ensures Stuck(ListenNext(s, e), i, p)
  {
    EntriesStay(s, e);
    match e
    case ListenStart(_) => case ListenTake(_) => case OpenDoor(_, _) => case SendAck(_, _) => case ListenDone(_) =>
    case CloseDoor(_) => case Forget(_) =>
  }

  lemma {:induction false} StuckStep(s: State, e: Event, i: nat, p: Ref)
    requires Separated(s) && Stuck(s, i, p) && Enabled(s, e) && NoNews([e])
    ensures Stuck(Next(s, e), i, p)
  {
    assert e in [e];
    match e
    case OfRun(r) => StuckRun(s, r, i, p);
    case OfDial(d) => StuckDial(s, d, i, p);
    case OfKnock(k) => StuckKnock(s, k, i, p);
    case OfListen(l) => StuckListen(s, l, i, p);
  }

  lemma {:induction false} StuckForever(s: State, es: seq<Event>, i: nat, p: Ref)
    requires Safe(s) && Stuck(s, i, p) && Runs(s, es) && NoNews(es)
    ensures Stuck(After(s, es), i, p)
    decreases es
  {
    if es != [] {
      assert es[0] in es && forall e | e in es[1..] :: e in es;
      StuckStep(s, es[0], i, p);
      SafeStep(s, es[0]);
      StuckForever(Next(s, es[0]), es[1..], i, p);
    }
  }

  ghost predicate Ends(s: State, es: seq<Event>, i: nat)
  {
    NoNews(es) && Runs(s, es) && i < |After(s, es).listeners| && After(s, es).listeners[i].at.Exited?
  }

  lemma {:induction false} CloseEnds(s: State, i: nat, p: Ref) returns (es: seq<Event>)
    requires Waits(s, i, p) && s.mux && !s.panicked && (s.tables.heap[p].done || Closable(s, p))
    ensures Ends(s, es, i)
  {
    var done := OfListen(ListenDone(i));
    if s.tables.heap[p].done {
      RunsPrepend(s, done, []);
      es := [done] + [];
    } else {
      var j :| 0 <= j < |s.listeners| && s.listeners[j].entry == p;
      var close := OfListen(CloseDoor(j));
      RunsPrepend(Next(s, close), done, []);
      RunsPrepend(s, close, [done] + []);
      es := [close] + ([done] + []);
    }
  }

  /** At every safe state: without another Accept and further knocks, a goroutine that waits for knocks can
      end if and only if its entry is done or some listener's Close will make it so. */
  lemma {:induction false} ListeningEndsExactlyWhenClosable(s: State, i: nat, p: Ref)
    requires Safe(s) && s.mux && !s.panicked && Waits(s, i, p)
    ensures (exists es :: Ends(s, es, i)) <==> s.tables.heap[p].done || Closable(s, p)
  {
    if s.tables.heap[p].done || Closable(s, p) {
      var es := CloseEnds(s, i, p);
    } else if es :| Ends(s, es, i) {
      StuckForever(s, es, i, p);
    }
  }

  /** For every id: a listener that is closed before its goroutine has fetched an entry leaves it waiting on
      an entry that no Close marks. */
  lemma {:induction false} ClosedTooEarly(translator: Option<Translator>, id: Id) returns (t: State)
    ensures Reaches(Init(true, translator), t) && t.listeners == [Listener(id, 0, Waiting(1))]
    ensures forall es :: Runs(t, es) && NoNews(es) ==> Stuck(After(t, es), 0, 1)
  {
    var z := Init(true, translator);
    ReachesSelf(z);
    t := Extend(z, z, OfListen(AcceptMux(id)));
    t := Extend(z, t, OfListen(CloseDoor(0)));
    t := Extend(z, t, OfListen(Forget(0)));
    t := Extend(z, t, OfListen(ListenStart(0)));
    Reached(true, translator, t);
    forall es | Runs(t, es) && NoNews(es) ensures Stuck(After(t, es), 0, 1) { StuckForever(t, es, 0, 1); }
  }
}
