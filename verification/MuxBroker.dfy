/**
 MuxBroker (mux_broker.go) with its Run loop, its timeoutWait goroutines and any number of
 Accept calls.  A step is one lock region or one channel operation; timeouts may always fire.
 Streams are numbered in the order Run accepts them, and entries live in an arena because
 goroutines keep using an entry after the table has forgotten it.
*/
module MuxBroker {
  import opened Basics

  type Stream = nat

  type Ref = nat

  /** muxBrokerPending; `id` is the key it was made for and `taken` whether a stream was ever read from it. */
  datatype Pending = Pending(id: Id, ch: Option<Stream>, done: bool, taken: bool)

  datatype RunAt =
    | Accepting
    | Reading(s: Stream)
    | Routing(s: Stream, id: Id)
    | Queueing(s: Stream, id: Id, p: Ref)
    | Spawning(id: Id, p: Ref)
    | Stopped

  /** One call of Accept. */
  datatype AcceptAt =
    | Waiting(id: Id, p: Ref)
    | Took(id: Id, p: Ref, s: Stream)
    | Acking(id: Id, s: Stream)
    | Returned(id: Id, s: Stream)
    | Failed

  /** `header` is the id Run read from each stream it could read one from; `closed` is a history. */
  datatype State = State(
    heap: seq<Pending>,
    streams: map<Id, Ref>,
    run: RunAt,
    waiters: multiset<(Id, Ref)>,
    accepts: seq<AcceptAt>,
    next: nat,
    header: map<Stream, Id>,
    closed: multiset<Stream>,
    panicked: bool)

  function Init(): State
  {
    State([], map[], Accepting, multiset{}, [], 0, map[], multiset{}, false)
  }

  datatype RunEvent = AcceptStream | AcceptStreamFails | ReadId(id: Id) | ReadFails | Route | Queue | Spawn

  datatype AcceptEvent = Start(id: Id) | Take(i: nat) | Close(i: nat) | Ack(i: nat, ok: bool) | Timeout(i: nat)

  datatype Event =
    | OfRun(r: RunEvent)
    | TimeoutWait(id: Id, p: Ref, timeout: bool)
    | OfAccept(a: AcceptEvent)

  predicate RunEnabled(s: State, e: RunEvent)
  {
    match e
    case AcceptStream => s.run.Accepting?
    case AcceptStreamFails => s.run.Accepting?
    case ReadId(_) => s.run.Reading?
    case ReadFails => s.run.Reading?
    case Route => s.run.Routing?
    case Queue => s.run.Queueing? && s.run.p < |s.heap|
    case Spawn => s.run.Spawning?
  }

  predicate WaitEnabled(s: State, id: Id, p: Ref, timeout: bool)
  {
    (id, p) in s.waiters && p < |s.heap| && (timeout || s.heap[p].done)
  }

  predicate AcceptEnabled(s: State, e: AcceptEvent)
  {
    (e.Start? || e.i < |s.accepts|) &&
    match e
    case Start(_) => true
    case Take(i) => s.accepts[i].Waiting? && s.accepts[i].p < |s.heap| && s.heap[s.accepts[i].p].ch.Some?
    case Close(i) => s.accepts[i].Took? && s.accepts[i].p < |s.heap|
    case Ack(i, _) => s.accepts[i].Acking?
    case Timeout(i) => s.accepts[i].Waiting?
  }

  predicate Enabled(s: State, e: Event)
  {
    !s.panicked &&
    match e
    case OfRun(r) => RunEnabled(s, r)
    case TimeoutWait(id, p, timeout) => WaitEnabled(s, id, p, timeout)
    case OfAccept(a) => AcceptEnabled(s, a)
  }

  /** getStream (mux_broker.go:179-193). */
  function GetStream(s: State, id: Id): (State, Ref)
  {
    if id in s.streams then (s, s.streams[id])
    else (s.(heap := s.heap + [Pending(id, None, false, false)], streams := s.streams[id := |s.heap|]), |s.heap|)
  }

  function One(b: bool, x: Stream): (r: multiset<Stream>)
    ensures forall y: Stream :: r[y] == Bit(b && x == y)
  {
    if b then multiset{x} else multiset{}
  }

  /** Run's select (mux_broker.go:158-175): the stream is queued, or closed because the slot is full. */
  function QueueStep(s: State): State
    requires RunEnabled(s, Queue)
  {
    var p := s.run.p;
    if s.heap[p].ch.None? then
      s.(heap := s.heap[p := s.heap[p].(ch := Some(s.run.s))], run := Spawning(s.run.id, p))
    else
      s.(closed := s.closed + One(true, s.run.s), run := Accepting)
  }

  /** timeoutWait after its select (mux_broker.go:205-219). */
  function TimeoutWaitStep(s: State, id: Id, p: Ref, timeout: bool): State
    requires WaitEnabled(s, id, p, timeout)
  {
    var s1 := s.(waiters := s.waiters - multiset{(id, p)}, streams := s.streams - {id});
    if timeout && s.heap[p].ch.Some? then
      s1.(heap := s.heap[p := s.heap[p].(ch := None)], closed := s.closed + One(true, s.heap[p].ch.value))
    else s1
  }

  function SetAccept(s: State, i: nat, at: AcceptAt): State
    requires i < |s.accepts|
  {
    s.(accepts := s.accepts[i := at])
  }

  function RunNext(s: State, e: RunEvent): State
    requires RunEnabled(s, e)
  {
    match e
    case AcceptStream => s.(run := Reading(s.next), next := s.next + 1)
    case AcceptStreamFails => s.(run := Stopped)
    case ReadId(id) => s.(run := Routing(s.run.s, id), header := s.header[s.run.s := id])
    case ReadFails => s.(run := Accepting, closed := s.closed + One(true, s.run.s))
    case Route =>
      var (s1, p) := GetStream(s, s.run.id);
      s1.(run := Queueing(s.run.s, s.run.id, p))
    case Queue => QueueStep(s)
    case Spawn => s.(run := Accepting, waiters := s.waiters + multiset{(s.run.id, s.run.p)})
  }

  /** Accept (mux_broker.go:54-75). */
  function AcceptNext(s: State, e: AcceptEvent): State
    requires AcceptEnabled(s, e)
  {
    match e
    case Start(id) =>
      var (s1, p) := GetStream(s, id);
      s1.(accepts := s.accepts + [Waiting(id, p)])
    case Take(i) =>
      var a := s.accepts[i];
      SetAccept(s, i, Took(a.id, a.p, s.heap[a.p].ch.value)).(
        heap := s.heap[a.p := s.heap[a.p].(ch := None, taken := true)])
    case Close(i) =>
      // closing doneCh twice panics
      var a := s.accepts[i];
      if s.heap[a.p].done then s.(panicked := true)
      else SetAccept(s, i, Acking(a.id, a.s)).(heap := s.heap[a.p := s.heap[a.p].(done := true)])
    case Ack(i, ok) =>
      var a := s.accepts[i];
      if ok then SetAccept(s, i, Returned(a.id, a.s))
      else SetAccept(s, i, Failed).(closed := s.closed + One(true, a.s))
    case Timeout(i) => SetAccept(s, i, Failed).(streams := s.streams - {s.accepts[i].id})
  }

  function Next(s: State, e: Event): State
    requires Enabled(s, e)
  {
    match e
    case OfRun(r) => RunNext(s, r)
    case TimeoutWait(id, p, timeout) => TimeoutWaitStep(s, id, p, timeout)
    case OfAccept(a) => AcceptNext(s, a)
  }

  predicate Runs(s: State, es: seq<Event>)
    decreases es
  {
    es == [] || (Enabled(s, es[0]) && Runs(Next(s, es[0]), es[1..]))
  }

  function After(s: State, es: seq<Event>): State
    requires Runs(s, es)
    decreases es
  {
    if es == [] then s else After(Next(s, es[0]), es[1..])
  }

  /** One step before a run. */
  lemma {:induction false} RunsPrepend(s: State, e: Event, es: seq<Event>)
    requires Enabled(s, e) && Runs(Next(s, e), es)
    ensures Runs(s, [e] + es) && After(s, [e] + es) == After(Next(s, e), es)
  {
    assert ([e] + es)[1..] == es;
  }

  ghost predicate Reaches(s: State, t: State)
  {
    exists es :: Runs(s, es) && After(s, es) == t
  }

  lemma {:induction false} RunsAppend(s: State, es: seq<Event>, e: Event)
    requires Runs(s, es) && Enabled(After(s, es), e)
    ensures Runs(s, es + [e]) && After(s, es + [e]) == Next(After(s, es), e)
    decreases es
  {
    if es == [] {
      assert [e][1..] == [] && es + [e] == [e];
    } else {
      assert (es + [e])[1..] == es[1..] + [e];
      RunsAppend(Next(s, es[0]), es[1..], e);
    }
  }

  lemma {:induction false} Extend(s: State, t: State, e: Event) returns (u: State)
    requires Reaches(s, t) && Enabled(t, e)
    ensures u == Next(t, e) && Reaches(s, u)
  {
    u := Next(t, e);
    var es :| Runs(s, es) && After(s, es) == t;
    RunsAppend(s, es, e);
  }
}
