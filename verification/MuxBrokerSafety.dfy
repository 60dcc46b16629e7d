/** What every interleaving of a MuxBroker keeps. */
module MuxBrokerSafety {
  import opened Basics
  import opened MuxBroker

  // ---------------------------------------------------------------- keys and headers

  ghost predicate EntryOf(h: seq<Pending>, p: Ref, id: Id)
  {
    p < |h| && h[p].id == id
  }

  ghost predicate Headed(s: State, x: Stream, id: Id)
  {
    x in s.header && s.header[x] == id
  }

  ghost predicate SlotOk(s: State, p: Pending)
  {
    (p.done ==> p.taken) && (p.ch.Some? ==> p.ch.value < s.next && Headed(s, p.ch.value, p.id))
  }

  ghost predicate AcceptOk(s: State, a: AcceptAt)
  {
    match a
    case Waiting(id, p) => EntryOf(s.heap, p, id)
    case Took(id, p, x) => EntryOf(s.heap, p, id) && s.heap[p].taken && Headed(s, x, id)
    case Acking(id, x) => Headed(s, x, id)
    case Returned(id, x) => Headed(s, x, id)
    case Failed => true
  }

  ghost predicate RunOk(s: State)
  {
    match s.run
    case Reading(x) => x < s.next && x !in s.header
    case Routing(x, id) => x < s.next && Headed(s, x, id)
    case Queueing(x, id, p) => x < s.next && Headed(s, x, id) && EntryOf(s.heap, p, id)
    case Spawning(id, p) => EntryOf(s.heap, p, id)
    case _ => true
  }

  /** Every goroutine works on an entry of its own id, and every stream it holds was opened for that id. */
  ghost predicate WellKeyed(s: State)
  {
    && (forall id :: id in s.streams ==> EntryOf(s.heap, s.streams[id], id))
    && (forall p :: 0 <= p < |s.heap| ==> SlotOk(s, s.heap[p]))
    && RunOk(s)
    && (forall w :: w in s.waiters ==> EntryOf(s.heap, w.1, w.0))
    && (forall i :: 0 <= i < |s.accepts| ==> AcceptOk(s, s.accepts[i]))
    && (forall x :: x in s.header ==> x < s.next)
  }

  // ---------------------------------------------------------------- conservation

  function SlotHolds(x: Stream): Pending -> bool
  {
    (p: Pending) => p.ch == Some(x)
  }

  function AcceptHolds(x: Stream): AcceptAt -> bool
  {
    (a: AcceptAt) => (a.Took? || a.Acking? || a.Returned?) && a.s == x
  }

  predicate RunHolds(r: RunAt, x: Stream)
  {
    (r.Reading? || r.Routing? || r.Queueing?) && r.s == x
  }

  /** A stream that Run has accepted is in exactly one place, and no other stream is anywhere. */
  ghost predicate Conserved(s: State, x: Stream)
  {
    Bit(RunHolds(s.run, x)) + CountIf(s.heap, SlotHolds(x)) + CountIf(s.accepts, AcceptHolds(x)) + s.closed[x] ==
      Bit(x < s.next)
  }

  // ---------------------------------------------------------------- ownership

  ghost predicate Guarded(s: State, id: Id, p: Ref)
  {
    (id, p) in s.waiters || s.run == Spawning(id, p)
  }

  ghost predicate Owner(s: State, id: Id, p: Ref)
  {
    || Guarded(s, id, p)
    || (s.run.Queueing? && s.run.p == p)
    || Waiting(id, p) in s.accepts
  }

  /** Each key has a goroutine that will delete it. */
  ghost predicate OwnedAt(s: State, id: Id)
  {
    id in s.streams ==>
      EntryOf(s.heap, s.streams[id], id) && Owner(s, id, s.streams[id]) &&
      (s.heap[s.streams[id]].ch.Some? ==> Guarded(s, id, s.streams[id]))
  }

  /** A queued stream has a timeoutWait that will drain its slot, unless the slot was read before. */
  ghost predicate Drains(s: State, p: Ref)
  {
    p < |s.heap| && s.heap[p].ch.Some? ==> s.heap[p].taken || Guarded(s, s.heap[p].id, p)
  }

  // ---------------------------------------------------------------- reads of an entry

  function TookOn(p: Ref): AcceptAt -> bool
  {
    (a: AcceptAt) => a.Took? && a.p == p
  }

  /** How many Accepts have read entry `p` and not gone on, or have closed it. */
  function Reads(s: State, p: Ref): nat
  {
    CountIf(s.accepts, TookOn(p)) + Bit(p < |s.heap| && s.heap[p].done)
  }

  /** An entry that was read is closed, or its reader is about to close it. */
  ghost predicate ReadOk(s: State, p: Ref)
  {
    p < |s.heap| && s.heap[p].taken ==> Reads(s, p) >= 1
  }

  // ---------------------------------------------------------------- each step keeps them

  /** Entries keep their keys and streams their headers, and a slot once read stays read. */
  ghost predicate Grows(s: State, s': State)
  {
    && |s.heap| <= |s'.heap|
    && (forall p :: 0 <= p < |s.heap| ==> s'.heap[p].id == s.heap[p].id && (s.heap[p].taken ==> s'.heap[p].taken))
    && s.next <= s'.next
    && (forall x :: x in s.header ==> x in s'.header && s'.header[x] == s.header[x])
  }

  lemma {:induction false} AcceptsGrow(s: State, s': State)
    requires Grows(s, s') && forall i :: 0 <= i < |s.accepts| ==> AcceptOk(s, s.accepts[i])
    ensures forall i :: 0 <= i < |s.accepts| ==> AcceptOk(s', s.accepts[i])
  {
  }

  lemma {:induction false} WellKeyedRoute(s: State)
    requires WellKeyed(s) && RunEnabled(s, Route)
    ensures WellKeyed(RunNext(s, Route))
  {
    AcceptsGrow(s, RunNext(s, Route));
  }

  lemma {:induction false} WellKeyedRun(s: State, e: RunEvent)
    requires WellKeyed(s) && RunEnabled(s, e) && !e.Queue? && !e.Route?
    ensures WellKeyed(RunNext(s, e))
  {
    AcceptsGrow(s, RunNext(s, e));
  }

  lemma {:induction false} WellKeyedQueue(s: State)
    requires WellKeyed(s) && RunEnabled(s, Queue)
    ensures WellKeyed(QueueStep(s))
  {
    AcceptsGrow(s, QueueStep(s));
  }

  lemma {:induction false} WellKeyedWait(s: State, id: Id, p: Ref, timeout: bool)
    requires WellKeyed(s) && WaitEnabled(s, id, p, timeout)
    ensures WellKeyed(TimeoutWaitStep(s, id, p, timeout))
  {
    AcceptsGrow(s, TimeoutWaitStep(s, id, p, timeout));
  }

  /** Moving one Accept on, with its entry updated to `q`, keeps keys and headers. */
  lemma {:induction false} WellKeyedMove(s: State, i: nat, a: AcceptAt, p: Ref, q: Pending)
    requires WellKeyed(s) && i < |s.accepts| && p < |s.heap|
    requires SlotOk(s, q) && q.id == s.heap[p].id && (s.heap[p].taken ==> q.taken)
    requires AcceptOk(s.(heap := s.heap[p := q]), a)
    ensures WellKeyed(SetAccept(s, i, a).(heap := s.heap[p := q]))
  {
    var s' := SetAccept(s, i, a).(heap := s.heap[p := q]);
    AcceptsGrow(s, s');
    forall r | 0 <= r < |s'.heap| ensures SlotOk(s', s'.heap[r]) {
      assert SlotOk(s, s.heap[r]);
    }
  }

  lemma {:induction false} WellKeyedEnd(s: State, i: nat, a: AcceptAt, streams: map<Id, Ref>, closed: multiset<Stream>)
    requires WellKeyed(s) && i < |s.accepts| && AcceptOk(s, a)
    requires forall id :: id in streams ==> id in s.streams && streams[id] == s.streams[id]
    ensures WellKeyed(SetAccept(s, i, a).(streams := streams, closed := closed))
  {
    var s' := SetAccept(s, i, a).(streams := streams, closed := closed);
    AcceptsGrow(s, s');
    forall r | 0 <= r < |s'.heap| ensures SlotOk(s', s'.heap[r]) {
      assert SlotOk(s, s.heap[r]);
    }
  }

  lemma {:induction false} WellKeyedTake(s: State, i: nat)
    requires WellKeyed(s) && AcceptEnabled(s, Take(i))
    ensures WellKeyed(AcceptNext(s, Take(i)))
  {
    var a := s.accepts[i];
    assert AcceptOk(s, a) && SlotOk(s, s.heap[a.p]);
    WellKeyedMove(s, i, Took(a.id, a.p, s.heap[a.p].ch.value), a.p, s.heap[a.p].(ch := None, taken := true));
  }

  lemma {:induction false} WellKeyedClose(s: State, i: nat)
    requires WellKeyed(s) && AcceptEnabled(s, Close(i))
    ensures WellKeyed(AcceptNext(s, Close(i)))
  {
    var a := s.accepts[i];
    assert AcceptOk(s, a) && SlotOk(s, s.heap[a.p]);
    if !s.heap[a.p].done {
      WellKeyedMove(s, i, Acking(a.id, a.s), a.p, s.heap[a.p].(done := true));
    }
  }

  lemma {:induction false} WellKeyedStart(s: State, id: Id)
    requires WellKeyed(s)
    ensures WellKeyed(AcceptNext(s, Start(id)))
  {
    AcceptsGrow(s, AcceptNext(s, Start(id)));
  }

  lemma {:induction false} WellKeyedAccept(s: State, e: AcceptEvent)
    requires WellKeyed(s) && AcceptEnabled(s, e)
    ensures WellKeyed(AcceptNext(s, e))
  {
    match e
    case Start(id) => WellKeyedStart(s, id);
    case Take(i) => WellKeyedTake(s, i);
    case Close(i) => WellKeyedClose(s, i);
    case Ack(i, _) =>
      assert AcceptOk(s, s.accepts[i]);
      WellKeyedEnd(s, i, AcceptNext(s, e).accepts[i], s.streams, AcceptNext(s, e).closed);
    case Timeout(i) => WellKeyedEnd(s, i, Failed, s.streams - {s.accepts[i].id}, s.closed);
  }

  lemma {:induction false} ConservedRun(s: State, e: RunEvent, x: Stream)
    requires Conserved(s, x) && RunEnabled(s, e) && RunOk(s)
    ensures Conserved(RunNext(s, e), x)
  {
    match e
    case Route => CountAppend(s.heap, Pending(s.run.id, None, false, false), SlotHolds(x));
    case Queue =>
      if s.heap[s.run.p].ch.None? {
        CountUpdate(s.heap, s.run.p, s.heap[s.run.p].(ch := Some(s.run.s)), SlotHolds(x));
      }
    case _ =>
  }

  lemma {:induction false} ConservedWait(s: State, id: Id, p: Ref, timeout: bool, x: Stream)
    requires Conserved(s, x) && WaitEnabled(s, id, p, timeout)
    ensures Conserved(TimeoutWaitStep(s, id, p, timeout), x)
  {
    CountUpdate(s.heap, p, s.heap[p].(ch := None), SlotHolds(x));
  }

  lemma {:induction false} ConservedTake(s: State, i: nat, x: Stream)
    requires Conserved(s, x) && AcceptEnabled(s, Take(i))
    ensures Conserved(AcceptNext(s, Take(i)), x)
  {
    var s' := AcceptNext(s, Take(i));
    CountUpdate(s.accepts, i, s'.accepts[i], AcceptHolds(x));
    CountUpdate(s.heap, s.accepts[i].p, s'.heap[s.accepts[i].p], SlotHolds(x));
  }

  lemma {:induction false} ConservedStart(s: State, id: Id, x: Stream)
    requires Conserved(s, x)
    ensures Conserved(AcceptNext(s, Start(id)), x)
  {
    CountAppend(s.heap, Pending(id, None, false, false), SlotHolds(x));
    CountAppend(s.accepts, Waiting(id, GetStream(s, id).1), AcceptHolds(x));
  }

  lemma {:induction false} ConservedClose(s: State, i: nat, x: Stream)
    requires Conserved(s, x) && AcceptEnabled(s, Close(i))
    ensures Conserved(AcceptNext(s, Close(i)), x)
  {
    var s' := AcceptNext(s, Close(i));
    CountUpdate(s.accepts, i, s'.accepts[i], AcceptHolds(x));
    CountUpdate(s.heap, s.accepts[i].p, s'.heap[s.accepts[i].p], SlotHolds(x));
  }

  lemma {:induction false} ConservedAccept(s: State, e: AcceptEvent, x: Stream)
    requires Conserved(s, x) && AcceptEnabled(s, e)
    ensures Conserved(AcceptNext(s, e), x)
  {
    var s' := AcceptNext(s, e);
    match e
    case Start(id) => ConservedStart(s, id, x);
    case Take(i) => ConservedTake(s, i, x);
    case Close(i) => ConservedClose(s, i, x);
    case Ack(i, _) => CountUpdate(s.accepts, i, s'.accepts[i], AcceptHolds(x));
    case Timeout(i) => CountUpdate(s.accepts, i, s'.accepts[i], AcceptHolds(x));
  }

  lemma InUpdate(s: seq<AcceptAt>, i: nat, x: AcceptAt, y: AcceptAt)
    requires i < |s| && y in s && y != s[i]
    ensures y in s[i := x]
  {
    var j :| 0 <= j < |s| && s[j] == y;
    assert s[i := x][j] == y;
  }

  lemma {:induction false} OwnedRun(s: State, e: RunEvent, id: Id)
    requires OwnedAt(s, id) && RunEnabled(s, e) && RunOk(s)
    ensures OwnedAt(RunNext(s, e), id)
  {
  }

  lemma {:induction false} OwnedWait(s: State, key: Id, p: Ref, timeout: bool, id: Id)
    requires OwnedAt(s, id) && WaitEnabled(s, key, p, timeout)
    ensures OwnedAt(TimeoutWaitStep(s, key, p, timeout), id)
  {
  }

  lemma {:induction false} OwnedAccept(s: State, e: AcceptEvent, id: Id)
    requires OwnedAt(s, id) && AcceptEnabled(s, e)
    requires !e.Start? ==> AcceptOk(s, s.accepts[e.i])
    ensures OwnedAt(AcceptNext(s, e), id)
  {
    if id in s.streams {
      var w := Waiting(id, s.streams[id]);
      if !e.Start? && w in s.accepts && w != s.accepts[e.i] {
        InUpdate(s.accepts, e.i, AcceptNext(s, e).accepts[e.i], w);
      }
    } else if e.Start? && e.id == id {
      assert AcceptNext(s, e).accepts[|s.accepts|] == Waiting(id, |s.heap|);
    }
  }

  lemma {:induction false} DrainsRun(s: State, e: RunEvent, p: Ref)
    requires Drains(s, p) && RunEnabled(s, e) && RunOk(s)
    ensures Drains(RunNext(s, e), p)
  {
  }

  lemma {:induction false} DrainsWait(s: State, id: Id, q: Ref, timeout: bool, p: Ref)
    requires Drains(s, p) && WaitEnabled(s, id, q, timeout) && (s.heap[q].done ==> s.heap[q].taken)
    ensures Drains(TimeoutWaitStep(s, id, q, timeout), p)
  {
  }

  lemma {:induction false} DrainsAccept(s: State, e: AcceptEvent, p: Ref)
    requires Drains(s, p) && AcceptEnabled(s, e)
    ensures Drains(AcceptNext(s, e), p)
  {
  }

  /** Only a Take adds a reader. */
  lemma {:induction false} ReadsAccept(s: State, e: AcceptEvent, p: Ref)
    requires AcceptEnabled(s, e)
    ensures Reads(AcceptNext(s, e), p) == Reads(s, p) + Bit(e.Take? && s.accepts[e.i].p == p)
  {
    var s' := AcceptNext(s, e);
    if e.Start? {
      CountAppend(s.accepts, Waiting(e.id, GetStream(s, e.id).1), TookOn(p));
    } else {
      CountUpdate(s.accepts, e.i, s'.accepts[e.i], TookOn(p));
    }
  }

  lemma {:induction false} ReadOkAccept(s: State, e: AcceptEvent, p: Ref)
    requires ReadOk(s, p) && AcceptEnabled(s, e)
    ensures ReadOk(AcceptNext(s, e), p)
  {
    ReadsAccept(s, e, p);
  }

  lemma {:induction false} ReadOkStep(s: State, e: Event, p: Ref)
    requires ReadOk(s, p) && Enabled(s, e)
    ensures ReadOk(Next(s, e), p)
  {
    if e.OfAccept? {
      ReadOkAccept(s, e.a, p);
    }
  }

  // ---------------------------------------------------------------- every interleaving

  ghost predicate Safe(s: State)
  {
    && WellKeyed(s)
    && (forall x: Stream :: Conserved(s, x))
    && (forall id: Id :: OwnedAt(s, id))
    && (forall p: Ref :: Drains(s, p))
    && (forall p: Ref :: ReadOk(s, p))
  }

  lemma {:induction false} SafeStep(s: State, e: Event)
    requires Safe(s) && Enabled(s, e)
    ensures Safe(Next(s, e))
  {
    forall p: Ref ensures ReadOk(Next(s, e), p) { ReadOkStep(s, e, p); }
    match e {
      case OfRun(r) =>
        if r.Queue? { WellKeyedQueue(s); } else if r.Route? { WellKeyedRoute(s); } else { WellKeyedRun(s, r); }
        forall x: Stream ensures Conserved(Next(s, e), x) { ConservedRun(s, r, x); }
        forall id: Id ensures OwnedAt(Next(s, e), id) { OwnedRun(s, r, id); }
        forall p: Ref ensures Drains(Next(s, e), p) { DrainsRun(s, r, p); }
      case TimeoutWait(key, q, timeout) =>
        assert SlotOk(s, s.heap[q]);
        WellKeyedWait(s, key, q, timeout);
        forall x: Stream ensures Conserved(Next(s, e), x) { ConservedWait(s, key, q, timeout, x); }
        forall id: Id ensures OwnedAt(Next(s, e), id) { OwnedWait(s, key, q, timeout, id); }
        forall p: Ref ensures Drains(Next(s, e), p) { DrainsWait(s, key, q, timeout, p); }
      case OfAccept(a) =>
        if !a.Start? { assert AcceptOk(s, s.accepts[a.i]); }
        WellKeyedAccept(s, a);
        forall x: Stream ensures Conserved(Next(s, e), x) { ConservedAccept(s, a, x); }
        forall id: Id ensures OwnedAt(Next(s, e), id) { OwnedAccept(s, a, id); }
        forall p: Ref ensures Drains(Next(s, e), p) { DrainsAccept(s, a, p); }
    }
  }

  lemma {:induction false} SafeRun(s: State, es: seq<Event>)
    requires Safe(s) && Runs(s, es)
    ensures Safe(After(s, es))
    decreases es
  {
    if es != [] {
      SafeStep(s, es[0]);
      SafeRun(Next(s, es[0]), es[1..]);
    }
  }

  lemma SafeInit()
    ensures Safe(Init())
  {
  }

  /** In every interleaving each accepted stream is in exactly one place: held by Run, queued in one
      slot, held or returned by one Accept, or closed, and closed only once. */
  lemma {:induction false} StreamsAreConserved(es: seq<Event>, x: Stream)
    requires Runs(Init(), es)
    ensures Conserved(After(Init(), es), x)
  {
    SafeInit();
    SafeRun(Init(), es);
  }

  /** Run is between streams and every timeoutWait and Accept has finished. */
  ghost predicate Quiet(s: State)
  {
    && s.waiters == multiset{} && !s.run.Queueing? && !s.run.Spawning?
    && forall i :: 0 <= i < |s.accepts| ==> !s.accepts[i].Waiting?
  }

  /** Once all is quiet no key is left, and a stream is still queued only in a slot that it entered
      after an earlier one had been taken. */
  lemma {:induction false} NothingLeftBehind(s: State)
    requires Safe(s) && Quiet(s)
    ensures s.streams == map[]
    ensures forall p :: 0 <= p < |s.heap| && s.heap[p].ch.Some? ==> s.heap[p].taken
  {
    forall id: Id ensures id !in s.streams { assert OwnedAt(s, id); }
    forall p | 0 <= p < |s.heap| && s.heap[p].ch.Some? ensures s.heap[p].taken { assert Drains(s, p); }
  }

  /** Accept(id) acknowledges and returns only streams whose dialer wrote `id`, so a Dial served by
      this broker never sees a wrong ack. */
  lemma {:induction false} AcksMatch(es: seq<Event>, i: nat)
    requires Runs(Init(), es) && i < |After(Init(), es).accepts|
    ensures var s := After(Init(), es);
            s.accepts[i].Acking? || s.accepts[i].Returned? ==> Headed(s, s.accepts[i].s, s.accepts[i].id)
  {
    SafeInit();
    SafeRun(Init(), es);
    assert AcceptOk(After(Init(), es), After(Init(), es).accepts[i]);
  }
}
