/**
 The two ways a MuxBroker goes wrong, and exactly when: a stream that stays in a slot nobody will
 read, and a done channel that is closed twice.
*/
module MuxBrokerFate {
  import opened Basics
  import opened MuxBroker
  import opened MuxBrokerSafety

  // ---------------------------------------------------------------- streams that are queued in time

  /** No stream is queued in a slot that was read before. */
  ghost predicate Timely(s: State, es: seq<Event>)
    requires Runs(s, es)
    decreases es
  {
    es == [] ||
    ((es[0] == OfRun(Queue) ==> !s.heap[s.run.p].taken) && Timely(Next(s, es[0]), es[1..]))
  }

  /** A full slot was never read. */
  ghost predicate Clean(s: State)
  {
    forall p :: 0 <= p < |s.heap| && s.heap[p].ch.Some? ==> !s.heap[p].taken
  }

  lemma {:induction false} CleanAccept(s: State, e: AcceptEvent)
    requires Clean(s) && AcceptEnabled(s, e)
    ensures Clean(AcceptNext(s, e))
  {
  }

  lemma {:induction false} CleanStep(s: State, e: Event)
    requires Clean(s) && Enabled(s, e) && (e == OfRun(Queue) ==> !s.heap[s.run.p].taken)
    ensures Clean(Next(s, e))
  {
    if e.OfAccept? {
      CleanAccept(s, e.a);
    }
  }

  lemma {:induction false} CleanRun(s: State, es: seq<Event>)
    requires Clean(s) && Runs(s, es) && Timely(s, es)
    ensures Clean(After(s, es))
    decreases es
  {
    if es != [] {
      CleanStep(s, es[0]);
      CleanRun(Next(s, es[0]), es[1..]);
    }
  }

  /** So if no stream is queued late, none is still queued once all is quiet. */
  lemma {:induction false} TimelyStreamsAreNotStranded(es: seq<Event>)
    requires Runs(Init(), es) && Timely(Init(), es) && Quiet(After(Init(), es))
    ensures forall p :: 0 <= p < |After(Init(), es).heap| ==> After(Init(), es).heap[p].ch.None?
  {
    SafeInit();
    SafeRun(Init(), es);
    NothingLeftBehind(After(Init(), es));
    CleanRun(Init(), es);
  }

  // ---------------------------------------------------------------- when a queued stream is stranded

  predicate Queued(s: State, p: Ref, x: Stream)
  {
    p < |s.heap| && s.heap[p].ch == Some(x)
  }

  /** Stream `x` is in slot `p` and stays there whatever happens. */
  ghost predicate Stranded(s: State, p: Ref, x: Stream)
  {
    !s.panicked && forall es :: Runs(s, es) ==> Queued(After(s, es), p, x)
  }

  ghost predicate CanStrand(s: State, p: Ref, x: Stream)
  {
    exists es :: Runs(s, es) && Quiet(After(s, es)) && Stranded(After(s, es), p, x)
  }

  /** No key and no goroutine leads to slot `p`. */
  ghost predicate Forgotten(s: State, p: Ref)
  {
    && p < |s.heap| && (forall id :: id in s.streams ==> s.streams[id] != p)
    && (forall w :: w in s.waiters ==> w.1 != p) && (s.run.Queueing? || s.run.Spawning? ==> s.run.p != p)
    && (forall i :: 0 <= i < |s.accepts| && s.accepts[i].Waiting? ==> s.accepts[i].p != p)
  }

  lemma {:induction false} ForgottenRun(s: State, e: RunEvent, p: Ref)
    requires Forgotten(s, p) && RunEnabled(s, e)
    ensures Forgotten(RunNext(s, e), p) && RunNext(s, e).heap[p].ch == s.heap[p].ch
  {
    var s' := RunNext(s, e);
    forall w | w in s'.waiters ensures w.1 != p {
      assert w in s.waiters || e.Spawn?;
    }
  }

  lemma {:induction false} ForgottenWait(s: State, id: Id, q: Ref, timeout: bool, p: Ref)
    requires Forgotten(s, p) && WaitEnabled(s, id, q, timeout)
    ensures Forgotten(TimeoutWaitStep(s, id, q, timeout), p)
    ensures TimeoutWaitStep(s, id, q, timeout).heap[p].ch == s.heap[p].ch
  {
    assert (id, q).1 != p;
    forall w | w in TimeoutWaitStep(s, id, q, timeout).waiters ensures w.1 != p {
      assert w in s.waiters;
    }
  }

  lemma {:induction false} ForgottenStart(s: State, id: Id, p: Ref)
    requires Forgotten(s, p)
    ensures Forgotten(AcceptNext(s, Start(id)), p) && AcceptNext(s, Start(id)).heap[p].ch == s.heap[p].ch
  {
  }

  lemma {:induction false} ForgottenAccept(s: State, e: AcceptEvent, p: Ref)
    requires Forgotten(s, p) && AcceptEnabled(s, e)
    ensures Forgotten(AcceptNext(s, e), p) && AcceptNext(s, e).heap[p].ch == s.heap[p].ch
  {
    if e.Start? {
      ForgottenStart(s, e.id, p);
    } else {
      var s' := AcceptNext(s, e);
      forall i | 0 <= i < |s'.accepts| && s'.accepts[i].Waiting? ensures s'.accepts[i].p != p {
        assert s'.accepts[i] == s.accepts[i];
      }
    }
  }

  lemma {:induction false} ForgottenStep(s: State, e: Event, p: Ref)
    requires Forgotten(s, p) && Enabled(s, e)
    ensures Forgotten(Next(s, e), p) && Next(s, e).heap[p].ch == s.heap[p].ch
  {
    match e
    case OfRun(r) => ForgottenRun(s, r, p);
    case TimeoutWait(id, q, timeout) => ForgottenWait(s, id, q, timeout, p);
    case OfAccept(a) => ForgottenAccept(s, a, p);
  }

  lemma {:induction false} ForgottenStays(s: State, es: seq<Event>, p: Ref, x: Stream)
    requires Forgotten(s, p) && Queued(s, p, x) && Runs(s, es)
    ensures Queued(After(s, es), p, x)
    decreases es
  {
    if es != [] {
      ForgottenStep(s, es[0], p);
      ForgottenStays(Next(s, es[0]), es[1..], p, x);
    }
  }

  lemma {:induction false} QuietIsStranded(s: State, p: Ref, x: Stream)
    requires Late(s, p, x) && Quiet(s)
    ensures CanStrand(s, p, x)
  {
    NothingLeftBehind(s);
    forall es | Runs(s, es) ensures Queued(After(s, es), p, x) { ForgottenStays(s, es, p, x); }
    assert Runs(s, []) && After(s, []) == s;
  }

  lemma {:induction false} CanStrandBefore(s: State, e: Event, p: Ref, x: Stream)
    requires Enabled(s, e) && CanStrand(Next(s, e), p, x)
    ensures CanStrand(s, p, x)
  {
    var es :| Runs(Next(s, e), es) && Quiet(After(Next(s, e), es)) && Stranded(After(Next(s, e), es), p, x);
    RunsPrepend(s, e, es);
  }

  /** Stream `x` is in slot `p`, which was read before. */
  ghost predicate Late(s: State, p: Ref, x: Stream)
  {
    Safe(s) && !s.panicked && Queued(s, p, x) && s.heap[p].taken
  }

  function IsWaiting(): AcceptAt -> bool
  {
    (a: AcceptAt) => a.Waiting?
  }

  function RunRank(r: RunAt): nat
  {
    match r case Queueing(_, _, _) => 2 case Spawning(_, _) => 1 case _ => 0
  }

  lemma {:induction false} LateStep(s: State, e: Event, p: Ref, x: Stream)
    requires Late(s, p, x) && Enabled(s, e)
    requires !(e.OfAccept? && e.a.Take?) && (e.OfAccept? && e.a.Close? ==> !s.heap[s.accepts[e.a.i].p].done)
    requires e.TimeoutWait? ==> e.p != p || !e.timeout
    ensures Late(Next(s, e), p, x) && (s.heap[p].done ==> Next(s, e).heap[p].done)
  {
    SafeStep(s, e);
  }

  lemma {:induction false} LateWaiter(s: State, p: Ref, x: Stream) returns (e: Event)
    requires Late(s, p, x) && s.heap[p].done && s.waiters != multiset{}
    ensures Enabled(s, e) && Late(Next(s, e), p, x) && Next(s, e).heap[p].done
    ensures Next(s, e).run == s.run && |Next(s, e).waiters| < |s.waiters|
  {
    var w :| w in s.waiters;
    e := TimeoutWait(w.0, w.1, w.1 != p);
    LateStep(s, e, p, x);
  }

  lemma {:induction false} LateAccept(s: State, p: Ref, x: Stream, i: nat) returns (e: Event)
    requires Late(s, p, x) && s.heap[p].done && i < |s.accepts| && s.accepts[i].Waiting?
    ensures Enabled(s, e) && Late(Next(s, e), p, x) && Next(s, e).heap[p].done
    ensures Next(s, e).run == s.run && Next(s, e).waiters == s.waiters
    ensures CountIf(Next(s, e).accepts, IsWaiting()) < CountIf(s.accepts, IsWaiting())
  {
    e := OfAccept(Timeout(i));
    CountUpdate(s.accepts, i, Failed, IsWaiting());
    LateStep(s, e, p, x);
  }

  lemma {:induction false} LateRun(s: State, p: Ref, x: Stream) returns (e: Event)
    requires Late(s, p, x) && s.heap[p].done && (s.run.Queueing? || s.run.Spawning?)
    ensures Enabled(s, e) && Late(Next(s, e), p, x) && Next(s, e).heap[p].done
    ensures RunRank(Next(s, e).run) < RunRank(s.run)
  {
    e := if s.run.Queueing? then OfRun(Queue) else OfRun(Spawn);
    LateStep(s, e, p, x);
  }

  lemma {:induction false} LateIsStranded(s: State, p: Ref, x: Stream)
    requires Late(s, p, x)
    ensures CanStrand(s, p, x)
    decreases Bit(!s.heap[p].done), RunRank(s.run), |s.waiters|, CountIf(s.accepts, IsWaiting())
  {
    if !s.heap[p].done {
      assert ReadOk(s, p);
      var i := CountSome(s.accepts, TookOn(p));
      var e := OfAccept(Close(i));
      LateStep(s, e, p, x);
      LateIsStranded(Next(s, e), p, x);
      CanStrandBefore(s, e, p, x);
    } else if Quiet(s) {
      QuietIsStranded(s, p, x);
    } else {
      var e;
      if s.run.Queueing? || s.run.Spawning? {
        e := LateRun(s, p, x);
      } else if s.waiters != multiset{} {
        e := LateWaiter(s, p, x);
      } else {
        var i :| 0 <= i < |s.accepts| && s.accepts[i].Waiting?;
        e := LateAccept(s, p, x, i);
      }
      LateIsStranded(Next(s, e), p, x);
      CanStrandBefore(s, e, p, x);
    }
  }

  /** Run has let go of stream `x`, and while the stream is in slot `p` the slot is unread. */
  ghost predicate InTime(s: State, p: Ref, x: Stream)
  {
    && x < s.next && !RunHolds(s.run, x)
    && (Queued(s, p, x) ==> !s.heap[p].taken)
  }

  lemma {:induction false} InTimeAccept(s: State, e: AcceptEvent, p: Ref, x: Stream)
    requires InTime(s, p, x) && AcceptEnabled(s, e)
    ensures InTime(AcceptNext(s, e), p, x)
  {
  }

  lemma {:induction false} InTimeRunStep(s: State, e: RunEvent, p: Ref, x: Stream)
    requires InTime(s, p, x) && RunEnabled(s, e)
    ensures InTime(RunNext(s, e), p, x)
  {
  }

  lemma {:induction false} InTimeStep(s: State, e: Event, p: Ref, x: Stream)
    requires InTime(s, p, x) && Enabled(s, e)
    ensures InTime(Next(s, e), p, x)
  {
    match e
    case OfRun(r) => InTimeRunStep(s, r, p, x);
    case OfAccept(a) => InTimeAccept(s, a, p, x);
    case TimeoutWait(_, _, _) =>
  }

  /** A stream in an unread slot has a timeoutWait that can drain it. */
  lemma {:induction false} CanBeDrained(s: State, p: Ref, x: Stream) returns (es: seq<Event>)
    requires Safe(s) && !s.panicked && Queued(s, p, x) && !s.heap[p].taken
    ensures Runs(s, es) && !Queued(After(s, es), p, x)
  {
    var id := s.heap[p].id;
    assert Drains(s, p);
    if (id, p) in s.waiters {
      RunsPrepend(s, TimeoutWait(id, p, true), []);
      es := [TimeoutWait(id, p, true)] + [];
    } else {
      var s1 := Next(s, OfRun(Spawn));
      RunsPrepend(s1, TimeoutWait(id, p, true), []);
      RunsPrepend(s, OfRun(Spawn), [TimeoutWait(id, p, true)] + []);
      es := [OfRun(Spawn)] + ([TimeoutWait(id, p, true)] + []);
    }
  }

  lemma {:induction false} InTimeRun(s: State, es: seq<Event>, p: Ref, x: Stream)
    requires Safe(s) && InTime(s, p, x) && Runs(s, es)
    ensures !Stranded(After(s, es), p, x)
    decreases es
  {
    if es == [] {
      assert Runs(s, []) && After(s, []) == s;
      if !s.panicked && Queued(s, p, x) {
        var fs := CanBeDrained(s, p, x);
      }
    } else {
      SafeStep(s, es[0]);
      InTimeStep(s, es[0], p, x);
      InTimeRun(Next(s, es[0]), es[1..], p, x);
    }
  }

  /** From every safe state, a stream queued in slot `p` stays there for good in some run, once all is
      quiet, if the slot was read before; and otherwise no run leads to a state where it must stay. */
  lemma {:induction false} StrandedExactlyWhenLate(s: State, p: Ref, x: Stream)
    requires Safe(s) && !s.panicked && Queued(s, p, x)
    ensures if s.heap[p].taken then CanStrand(s, p, x) else forall es :: Runs(s, es) ==> !Stranded(After(s, es), p, x)
  {
    if s.heap[p].taken {
      LateIsStranded(s, p, x);
    } else {
      assert Conserved(s, x);
      CountMember(s.heap, p, SlotHolds(x));
      forall es | Runs(s, es) ensures !Stranded(After(s, es), p, x) {
        InTimeRun(s, es, p, x);
      }
    }
  }

  // ---------------------------------------------------------------- streams without an id

  lemma {:induction false} ClosedStays(s: State, es: seq<Event>, x: Stream)
    requires Safe(s) && Runs(s, es) && s.closed[x] == 1
    ensures Safe(After(s, es)) && After(s, es).closed[x] == 1
    decreases es
  {
    if es != [] {
      ClosedGrows(s, es[0], x);
      SafeStep(s, es[0]);
      assert Conserved(Next(s, es[0]), x);
      ClosedStays(Next(s, es[0]), es[1..], x);
    }
  }

  /** At every safe state, the id of a stream that Run holds may be unreadable; the stream is then closed,
      once, and is in no slot and with no Accept in any continuation, and Run goes on. */
  lemma {:induction false} UnreadableIsClosed(s: State, x: Stream, es: seq<Event>)
    requires Safe(s) && !s.panicked && s.run == Reading(x)
    requires Runs(s.(run := Accepting, closed := s.closed + multiset{x}), es)
    ensures Enabled(s, OfRun(ReadFails)) && Runs(s, [OfRun(ReadFails)] + es)
    ensures var s' := After(s, [OfRun(ReadFails)] + es);
            s'.closed[x] == 1 && CountIf(s'.heap, SlotHolds(x)) == 0 && CountIf(s'.accepts, AcceptHolds(x)) == 0
  {
    assert Conserved(s, x);
    RunsPrepend(s, OfRun(ReadFails), es);
    SafeStep(s, OfRun(ReadFails));
    ClosedStays(Next(s, OfRun(ReadFails)), es, x);
    assert Conserved(After(s, [OfRun(ReadFails)] + es), x);
  }

  // ---------------------------------------------------------------- every call can end

  lemma {:induction false} RunGoesOn(s: State) returns (e: Event)
    requires WellKeyed(s) && !s.panicked && (s.run.Queueing? || s.run.Spawning?)
    ensures Enabled(s, e) && !Next(s, e).panicked && RunRank(Next(s, e).run) < RunRank(s.run)
  {
    e := OfRun(if s.run.Queueing? then Queue else Spawn);
  }

  lemma {:induction false} CallGoesOn(s: State) returns (e: Event)
    requires WellKeyed(s) && !s.panicked && !Quiet(s) && !s.run.Queueing? && !s.run.Spawning?
    ensures Enabled(s, e) && !Next(s, e).panicked && Next(s, e).run == s.run
    ensures |Next(s, e).waiters| + CountIf(Next(s, e).accepts, IsWaiting()) < |s.waiters| + CountIf(s.accepts, IsWaiting())
  {
    if w :| w in s.waiters {
      e := TimeoutWait(w.0, w.1, true);
    } else {
      var i :| 0 <= i < |s.accepts| && s.accepts[i].Waiting?;
      e := OfAccept(Timeout(i));
      CountUpdate(s.accepts, i, Failed, IsWaiting());
    }
  }

  lemma {:induction false} Finish(s: State) returns (es: seq<Event>)
    requires Safe(s) && !s.panicked
    ensures Runs(s, es) && Quiet(After(s, es)) && Safe(After(s, es)) && !After(s, es).panicked
    decreases RunRank(s.run), |s.waiters| + CountIf(s.accepts, IsWaiting())
  {
    es := [];
    if !Quiet(s) {
      var e;
      if s.run.Queueing? || s.run.Spawning? {
        e := RunGoesOn(s);
      } else {
        e := CallGoesOn(s);
      }
      SafeStep(s, e);
      var rest := Finish(Next(s, e));
      RunsPrepend(s, e, rest);
      es := [e] + rest;
    }
  }

  /** In every run that has not panicked every Accept and timeoutWait can still end, and then no key is left. */
  lemma {:induction false} CallsCanAlwaysEnd(es: seq<Event>) returns (more: seq<Event>)
    requires Runs(Init(), es) && !After(Init(), es).panicked
    ensures var s := After(Init(), es);
            Runs(s, more) && Quiet(After(s, more)) && After(s, more).streams == map[] && !After(s, more).panicked
  {
    SafeInit();
    SafeRun(Init(), es);
    more := Finish(After(Init(), es));
    NothingLeftBehind(After(After(Init(), es), more));
  }

  // ---------------------------------------------------------------- what becomes of an acknowledged stream

  /** Accept `i` has returned stream `x`, which is open. */
  ghost predicate HasReturned(s: State, i: nat, id: Id, x: Stream)
  {
    i < |s.accepts| && s.accepts[i] == Returned(id, x) && s.closed[x] == 0 && Headed(s, x, id)
  }

  /** Accept `i` has failed, and the stream it could not acknowledge is closed. */
  ghost predicate HasFailed(s: State, i: nat, x: Stream)
  {
    i < |s.accepts| && s.accepts[i].Failed? && s.closed[x] == 1
  }

  lemma {:induction false} HeldIsOpen(s: State, i: nat)
    requires Safe(s) && i < |s.accepts| && (s.accepts[i].Acking? || s.accepts[i].Returned?)
    ensures s.closed[s.accepts[i].s] == 0
  {
    var x := s.accepts[i].s;
    assert Conserved(s, x);
    CountMember(s.accepts, i, AcceptHolds(x));
  }

  lemma {:induction false} CallEnded(s: State, e: Event, i: nat)
    requires Enabled(s, e) && i < |s.accepts| && (s.accepts[i].Returned? || s.accepts[i].Failed?)
    ensures i < |Next(s, e).accepts| && Next(s, e).accepts[i] == s.accepts[i]
  {
  }

  lemma {:induction false} ClosedGrows(s: State, e: Event, x: Stream)
    requires Enabled(s, e)
    ensures s.closed[x] <= Next(s, e).closed[x]
  {
  }

  lemma {:induction false} ReturnedStays(s: State, es: seq<Event>, i: nat, id: Id, x: Stream)
    requires Safe(s) && Runs(s, es) && HasReturned(s, i, id, x)
    ensures HasReturned(After(s, es), i, id, x)
    decreases es
  {
    if es != [] {
      CallEnded(s, es[0], i);
      SafeStep(s, es[0]);
      HeldIsOpen(Next(s, es[0]), i);
      assert AcceptOk(Next(s, es[0]), Next(s, es[0]).accepts[i]);
      ReturnedStays(Next(s, es[0]), es[1..], i, id, x);
    }
  }

  lemma {:induction false} FailedStays(s: State, es: seq<Event>, i: nat, x: Stream)
    requires Safe(s) && Runs(s, es) && HasFailed(s, i, x)
    ensures HasFailed(After(s, es), i, x)
    decreases es
  {
    if es != [] {
      CallEnded(s, es[0], i);
      ClosedGrows(s, es[0], x);
      SafeStep(s, es[0]);
      assert Conserved(Next(s, es[0]), x);
      FailedStays(Next(s, es[0]), es[1..], i, x);
    }
  }

  /** In every run: an Accept whose ack was written has its stream for good, open and opened for its id;
      one whose ack could not be written has failed for good, and its stream is closed, once. */
  lemma {:induction false} AckDecides(es: seq<Event>, i: nat, ok: bool, more: seq<Event>)
    requires Runs(Init(), es) && i < |After(Init(), es).accepts| && After(Init(), es).accepts[i].Acking?
    requires Runs(After(Init(), es), [OfAccept(Ack(i, ok))] + more)
    ensures var was, s := After(Init(), es).accepts[i], After(After(Init(), es), [OfAccept(Ack(i, ok))] + more);
            if ok then HasReturned(s, i, was.id, was.s) else HasFailed(s, i, was.s)
  {
    var s, e := After(Init(), es), OfAccept(Ack(i, ok));
    SafeInit();
    SafeRun(Init(), es);
    HeldIsOpen(s, i);
    assert AcceptOk(s, s.accepts[i]) && ([e] + more)[1..] == more;
    SafeStep(s, e);
    if ok {
      ReturnedStays(Next(s, e), more, i, s.accepts[i].id, s.accepts[i].s);
    } else {
      FailedStays(Next(s, e), more, i, s.accepts[i].s);
    }
  }

  /** A stream that waits in the slot of an Accept is returned by it, open. */
  lemma {:induction false} Collect(z: State, s: State, id: Id, i: nat) returns (t: State)
    requires Reaches(z, s) && !s.panicked && i < |s.accepts| && s.accepts[i].Waiting? && s.accepts[i].id == id
    requires s.accepts[i].p < |s.heap| && s.heap[s.accepts[i].p].ch.Some? && !s.heap[s.accepts[i].p].done
    ensures Reaches(z, t) && !t.panicked && t.closed == s.closed && t.run == s.run && t.header == s.header
    ensures t.accepts == s.accepts[i := Returned(id, s.heap[s.accepts[i].p].ch.value)]
  {
    t := Extend(z, s, OfAccept(Take(i)));
    t := Extend(z, t, OfAccept(Close(i)));
    t := Extend(z, t, OfAccept(Ack(i, true)));
  }

  /** For every id, and whether Accept(id) or the stream for id comes first: a run in which Accept(id)
      returns that stream, open. */
  lemma {:induction false} AcceptIsServed(id: Id, acceptFirst: bool) returns (t: State)
    ensures Reaches(Init(), t) && !t.panicked && t.run.Accepting? && t.header == map[0 := id]
    ensures t.accepts == [Returned(id, 0)] && t.closed == multiset{}
  {
    var z := Init();
    assert Runs(z, []) && After(z, []) == z;
    t := z;
    if acceptFirst {
      t := Extend(z, t, OfAccept(Start(id)));
      t := Arrive(z, t, id, 0);
    } else {
      t := Arrive(z, t, id, 0);
      t := Extend(z, t, OfAccept(Start(id)));
    }
    t := Collect(z, t, id, 0);
  }

  // ---------------------------------------------------------------- when a done channel is closed twice

  ghost predicate Once(s: State)
  {
    forall p: Ref :: Reads(s, p) <= 1
  }

  /** No Accept reads an entry that was read before. */
  ghost predicate FreshTakes(s: State, es: seq<Event>)
    requires Runs(s, es)
    decreases es
  {
    es == [] ||
    ((es[0].OfAccept? && es[0].a.Take? ==> !s.heap[s.accepts[es[0].a.i].p].taken) && FreshTakes(Next(s, es[0]), es[1..]))
  }

  /** An unread entry has no reader. */
  lemma {:induction false} Unread(s: State, p: Ref)
    requires WellKeyed(s) && p < |s.heap| && !s.heap[p].taken
    ensures Reads(s, p) == 0
  {
    assert SlotOk(s, s.heap[p]);
    forall i | 0 <= i < |s.accepts| ensures !TookOn(p)(s.accepts[i]) {
      assert AcceptOk(s, s.accepts[i]);
    }
    assert CountIf(s.accepts, TookOn(p)) == 0;
  }

  lemma {:induction false} OnceAccept(s: State, e: AcceptEvent)
    requires Once(s) && WellKeyed(s) && AcceptEnabled(s, e) && !s.panicked
    requires e.Take? ==> !s.heap[s.accepts[e.i].p].taken
    ensures Once(AcceptNext(s, e)) && !AcceptNext(s, e).panicked
  {
    if e.Take? {
      Unread(s, s.accepts[e.i].p);
    }
    if e.Close? {
      var p := s.accepts[e.i].p;
      CountMember(s.accepts, e.i, TookOn(p));
      assert Reads(s, p) <= 1;
    }
    forall p: Ref ensures Reads(AcceptNext(s, e), p) <= 1 {
      assert Reads(s, p) <= 1;
      ReadsAccept(s, e, p);
    }
  }

  lemma {:induction false} OnceStep(s: State, e: Event)
    requires Once(s) && WellKeyed(s) && Enabled(s, e)
    requires e.OfAccept? && e.a.Take? ==> !s.heap[s.accepts[e.a.i].p].taken
    ensures Once(Next(s, e)) && !Next(s, e).panicked
  {
    if e.OfAccept? {
      OnceAccept(s, e.a);
    } else {
      forall p: Ref ensures Reads(Next(s, e), p) <= 1 {
        assert Reads(s, p) <= 1;
      }
    }
  }

  lemma {:induction false} OnceRun(s: State, es: seq<Event>)
    requires Safe(s) && Once(s) && !s.panicked && Runs(s, es) && FreshTakes(s, es)
    ensures !After(s, es).panicked
    decreases es
  {
    if es != [] {
      OnceStep(s, es[0]);
      SafeStep(s, es[0]);
      OnceRun(Next(s, es[0]), es[1..]);
    }
  }

  /** No run in which no entry is read twice panics. */
  lemma {:induction false} FreshTakesNeverPanic(es: seq<Event>)
    requires Runs(Init(), es) && FreshTakes(Init(), es)
    ensures !After(Init(), es).panicked
  {
    SafeInit();
    OnceRun(Init(), es);
  }

  lemma {:induction false} TimelyTakesAreFresh(s: State, es: seq<Event>)
    requires Clean(s) && Runs(s, es) && Timely(s, es)
    ensures FreshTakes(s, es)
    decreases es
  {
    if es != [] {
      CleanStep(s, es[0]);
      TimelyTakesAreFresh(Next(s, es[0]), es[1..]);
    }
  }

  /** Runs without late streams are among them. */
  lemma {:induction false} TimelyRunsNeverPanic(es: seq<Event>)
    requires Runs(Init(), es) && Timely(Init(), es)
    ensures !After(Init(), es).panicked
  {
    TimelyTakesAreFresh(Init(), es);
    FreshTakesNeverPanic(es);
  }

  // ---------------------------------------------------------------- what a caller can do about it

  predicate WaitsFor(a: AcceptAt, id: Id)
  {
    a.Waiting? && a.id == id
  }

  predicate Served(h: seq<Pending>, p: Ref, id: Id)
  {
    p < |h| && h[p].id == id && h[p].taken
  }

  /** An Accept(id) is waiting, or one has received a stream. */
  ghost predicate InUse(s: State, id: Id)
  {
    (exists i :: 0 <= i < |s.accepts| && WaitsFor(s.accepts[i], id)) || exists p: Ref :: Served(s.heap, p, id)
  }

  /** Accept(id) is called only while no Accept(id) is waiting or has received a stream. */
  ghost predicate NewAccepts(s: State, es: seq<Event>)
    requires Runs(s, es)
    decreases es
  {
    es == [] ||
    ((es[0].OfAccept? && es[0].a.Start? ==> !InUse(s, es[0].a.id)) && NewAccepts(Next(s, es[0]), es[1..]))
  }

  /** At most one Accept of each id waits, and none of an id that was served. */
  ghost predicate Solo(s: State)
  {
    && (forall id: Id, i, j :: 0 <= i < j < |s.accepts| && WaitsFor(s.accepts[i], id) ==> !WaitsFor(s.accepts[j], id))
    && (forall id: Id, i, p: Ref :: 0 <= i < |s.accepts| && WaitsFor(s.accepts[i], id) ==> !Served(s.heap, p, id))
  }

  lemma {:induction false} SoloStart(s: State, id: Id)
    requires Solo(s) && !InUse(s, id)
    ensures Solo(AcceptNext(s, Start(id)))
  {
    var s' := AcceptNext(s, Start(id));
    forall key: Id, i, p: Ref | 0 <= i < |s'.accepts| && WaitsFor(s'.accepts[i], key) ensures !Served(s'.heap, p, key) {
      assert (i < |s.accepts| || key == id) && !Served(s.heap, p, key);
    }
  }

  lemma {:induction false} SoloTake(s: State, k: nat)
    requires Solo(s) && WellKeyed(s) && AcceptEnabled(s, Take(k))
    ensures Solo(AcceptNext(s, Take(k)))
  {
    var s', a := AcceptNext(s, Take(k)), s.accepts[k];
    assert AcceptOk(s, a) && WaitsFor(a, a.id);
    forall id: Id, i, p: Ref | 0 <= i < |s'.accepts| && WaitsFor(s'.accepts[i], id) ensures !Served(s'.heap, p, id) {
      assert i != k && WaitsFor(s.accepts[i], id) && id != a.id && !Served(s.heap, p, id);
    }
  }

  /** Fewer Accepts wait and no more entries are served. */
  lemma {:induction false} SoloSame(s: State, s': State)
    requires Solo(s) && |s'.accepts| == |s.accepts|
    requires forall i :: 0 <= i < |s.accepts| && s'.accepts[i].Waiting? ==> s'.accepts[i] == s.accepts[i]
    requires forall p: Ref, id: Id :: Served(s'.heap, p, id) ==> Served(s.heap, p, id)
    ensures Solo(s')
  {
  }

  lemma {:induction false} SoloAccept(s: State, e: AcceptEvent)
    requires Solo(s) && WellKeyed(s) && AcceptEnabled(s, e) && (e.Start? ==> !InUse(s, e.id))
    ensures Solo(AcceptNext(s, e))
  {
    match e
    case Start(id) => SoloStart(s, id);
    case Take(i) => SoloTake(s, i);
    case _ => SoloSame(s, AcceptNext(s, e));
  }

  lemma {:induction false} OthersServeNobody(s: State, e: Event)
    requires Enabled(s, e) && !e.OfAccept?
    ensures Next(s, e).accepts == s.accepts
    ensures forall p: Ref, id: Id :: Served(Next(s, e).heap, p, id) ==> Served(s.heap, p, id)
  {
    match e
    case OfRun(r) =>
      match r {
        case AcceptStream => case AcceptStreamFails => case ReadId(_) => case ReadFails =>
        case Route => case Queue => case Spawn =>
      }
    case TimeoutWait(_, _, _) =>
  }

  lemma {:induction false} SoloStep(s: State, e: Event)
    requires Solo(s) && WellKeyed(s) && Enabled(s, e) && (e.OfAccept? && e.a.Start? ==> !InUse(s, e.a.id))
    ensures Solo(Next(s, e))
  {
    if e.OfAccept? {
      SoloAccept(s, e.a);
    } else {
      OthersServeNobody(s, e);
      SoloSame(s, Next(s, e));
    }
  }

  lemma {:induction false} NewAcceptsAreFresh(s: State, es: seq<Event>)
    requires Safe(s) && Solo(s) && Runs(s, es) && NewAccepts(s, es)
    ensures FreshTakes(s, es)
    decreases es
  {
    if es != [] {
      if es[0].OfAccept? && es[0].a.Take? {
        var a := s.accepts[es[0].a.i];
        assert AcceptOk(s, a) && WaitsFor(a, a.id) && !Served(s.heap, a.p, a.id);
      }
      SoloStep(s, es[0]);
      SafeStep(s, es[0]);
      NewAcceptsAreFresh(Next(s, es[0]), es[1..]);
    }
  }

  /** If Accept(id) is called only while no Accept(id) is waiting or has received a stream, the process is
      never brought down, whatever streams the peer opens. */
  lemma {:induction false} NewAcceptsNeverPanic(es: seq<Event>)
    requires Runs(Init(), es) && NewAccepts(Init(), es)
    ensures !After(Init(), es).panicked
  {
    SafeInit();
    NewAcceptsAreFresh(Init(), es);
    FreshTakesNeverPanic(es);
  }

  predicate Accepts(e: Event, id: Id)
  {
    e == OfAccept(Start(id))
  }

  /** Accept is called at most once for each id. */
  ghost predicate AcceptsEachOnce(es: seq<Event>)
  {
    forall id: Id, i, j :: 0 <= i < j < |es| && Accepts(es[i], id) ==> !Accepts(es[j], id)
  }

  lemma {:induction false} UseAccept(s: State, e: AcceptEvent, id: Id)
    requires WellKeyed(s) && AcceptEnabled(s, e) && e != Start(id) && !InUse(s, id)
    ensures !InUse(AcceptNext(s, e), id)
  {
    var s' := AcceptNext(s, e);
    if e.Take? {
      assert AcceptOk(s, s.accepts[e.i]) && !WaitsFor(s.accepts[e.i], id);
    }
    forall p: Ref ensures !Served(s'.heap, p, id) { assert !Served(s.heap, p, id); }
    forall i | 0 <= i < |s'.accepts| ensures !WaitsFor(s'.accepts[i], id) {
      assert i < |s.accepts| ==> !WaitsFor(s.accepts[i], id);
    }
  }

  /** Only a call of Accept puts an id to use. */
  lemma {:induction false} UseStep(s: State, e: Event, id: Id)
    requires WellKeyed(s) && Enabled(s, e) && !Accepts(e, id) && !InUse(s, id)
    ensures !InUse(Next(s, e), id)
  {
    if e.OfAccept? {
      UseAccept(s, e.a, id);
    } else {
      OthersServeNobody(s, e);
    }
  }

  lemma {:induction false} EachOnceIsNew(s: State, es: seq<Event>)
    requires Safe(s) && Runs(s, es) && AcceptsEachOnce(es)
    requires forall id: Id, i :: 0 <= i < |es| && Accepts(es[i], id) ==> !InUse(s, id)
    ensures NewAccepts(s, es)
    decreases es
  {
    if es != [] {
      var e, rest := es[0], es[1..];
      assert e.OfAccept? && e.a.Start? ==> Accepts(es[0], e.a.id);
      forall id: Id, i | 0 <= i < |rest| && Accepts(rest[i], id) ensures !InUse(Next(s, e), id) {
        assert rest[i] == es[i + 1] && Accepts(es[i + 1], id);
        UseStep(s, e, id);
      }
      SafeStep(s, e);
      assert AcceptsEachOnce(rest) by {
        forall id: Id, i, j | 0 <= i < j < |rest| && Accepts(rest[i], id) ensures !Accepts(rest[j], id) {
          assert rest[i] == es[i + 1] && rest[j] == es[j + 1];
        }
      }
      EachOnceIsNew(Next(s, e), rest);
    }
  }

  /** So a process that accepts each id at most once is never brought down. */
  lemma {:induction false} AcceptingEachIdOnceNeverPanics(es: seq<Event>)
    requires Runs(Init(), es) && AcceptsEachOnce(es)
    ensures !After(Init(), es).panicked
  {
    SafeInit();
    EachOnceIsNew(Init(), es);
    NewAcceptsNeverPanic(es);
  }

  // ---------------------------------------------------------------- a second read is fatal

  /** Accepts that have read their entries go on, and nothing else happens. */
  predicate GoOn(es: seq<Event>)
  {
    forall i :: 0 <= i < |es| ==> es[i].OfAccept? && es[i].a.Close?
  }

  ghost predicate Fatal(s: State, es: seq<Event>)
  {
    GoOn(es) && Runs(s, es) && After(s, es).panicked
  }

  lemma {:induction false} GoOnFresh(s: State, es: seq<Event>)
    requires Runs(s, es) && GoOn(es)
    ensures FreshTakes(s, es)
    decreases es
  {
    if es != [] {
      GoOnFresh(Next(s, es[0]), es[1..]);
    }
  }

  lemma {:induction false} CloseAgain(s: State, i: nat)
    requires !s.panicked && i < |s.accepts| && s.accepts[i].Took? && s.accepts[i].p < |s.heap|
    requires s.heap[s.accepts[i].p].done
    ensures Fatal(s, [OfAccept(Close(i))] + [])
  {
    RunsPrepend(s, OfAccept(Close(i)), []);
  }

  lemma {:induction false} CloseTwice(s: State, p: Ref, i: nat, j: nat)
    requires !s.panicked && i < |s.accepts| && j < |s.accepts| && i != j && p < |s.heap| && !s.heap[p].done
    requires TookOn(p)(s.accepts[i]) && TookOn(p)(s.accepts[j])
    ensures Fatal(s, [OfAccept(Close(i))] + ([OfAccept(Close(j))] + []))
  {
    CloseAgain(Next(s, OfAccept(Close(i))), j);
    RunsPrepend(s, OfAccept(Close(i)), [OfAccept(Close(j))] + []);
  }

  lemma {:induction false} SecondReadIsFatal(s: State, p: Ref) returns (es: seq<Event>)
    requires WellKeyed(s) && !s.panicked && Reads(s, p) >= 2
    ensures Fatal(s, es)
  {
    var i := CountSome(s.accepts, TookOn(p));
    assert AcceptOk(s, s.accepts[i]);
    if s.heap[p].done {
      es := [OfAccept(Close(i))] + [];
      CloseAgain(s, i);
    } else {
      var j := CountAnother(s.accepts, i, TookOn(p));
      es := [OfAccept(Close(i))] + ([OfAccept(Close(j))] + []);
      CloseTwice(s, p, i, j);
    }
  }

  /** At every safe state, Accepts that go on from where they are bring the process down if and only if
      some entry has been read twice. */
  lemma {:induction false} PanicsExactlyOnSecondRead(s: State)
    requires Safe(s) && !s.panicked
    ensures (exists es :: Fatal(s, es)) <==> !Once(s)
  {
    if p: Ref :| Reads(s, p) > 1 {
      var es := SecondReadIsFatal(s, p);
    } else if es :| Fatal(s, es) {
      GoOnFresh(s, es);
      OnceRun(s, es);
    }
  }

  // ---------------------------------------------------------------- both happen

  /** A stream for `id` arrives and is queued in slot `p`. */
  lemma {:induction false} Arrive(z: State, s: State, id: Id, p: Ref) returns (t: State)
    requires Reaches(z, s) && !s.panicked && s.run.Accepting?
    requires if id in s.streams then s.streams[id] == p < |s.heap| && s.heap[p].ch.None? else p == |s.heap|
    ensures Reaches(z, t) && !t.panicked && t.run.Accepting?
    ensures t.accepts == s.accepts && t.waiters == s.waiters + multiset{(id, p)} && t.streams == s.streams[id := p]
    ensures p < |t.heap| && t.heap[p].ch == Some(s.next) && t.header == s.header[s.next := id] && t.closed == s.closed
    ensures id in s.streams ==> t.heap[p].done == s.heap[p].done
    ensures id !in s.streams ==> !t.heap[p].done
  {
    t := Extend(z, s, OfRun(AcceptStream));
    t := Extend(z, t, OfRun(ReadId(id)));
    t := Extend(z, t, OfRun(Route));
    t := Extend(z, t, OfRun(Queue));
    t := Extend(z, t, OfRun(Spawn));
  }

  /** One stream for `id` is accepted and a second one is queued in the same slot. */
  lemma {:induction false} SecondStream(id: Id) returns (t: State)
    ensures Reaches(Init(), t) && !t.panicked && t.run.Accepting?
    ensures |t.accepts| == 1 && t.accepts[0].Acking?
    ensures t.waiters == multiset{(id, 0), (id, 0)} && t.streams == map[id := 0]
    ensures |t.heap| > 0 && t.heap[0].ch.Some? && t.heap[0].done
  {
    var z := Init();
    assert Runs(z, []) && After(z, []) == z;
    t := Arrive(z, z, id, 0);
    t := Extend(z, t, OfAccept(Start(id)));
    t := Extend(z, t, OfAccept(Take(0)));
    t := Extend(z, t, OfAccept(Close(0)));
    t := Arrive(z, t, id, 0);
  }

  /** For every id, two Accepts that are served from one entry bring the process down. */
  lemma {:induction false} TwoAcceptsOnOneEntryPanic(id: Id) returns (t: State)
    ensures Reaches(Init(), t) && t.panicked
  {
    var z := Init();
    t := SecondStream(id);
    t := Extend(z, t, OfAccept(Start(id)));
    t := Extend(z, t, OfAccept(Take(1)));
    t := Extend(z, t, OfAccept(Close(1)));
  }

  /** For every id, some run strands a stream. */
  lemma {:induction false} SomeStreamIsStranded(id: Id) returns (t: State)
    ensures Reaches(Init(), t) && exists x :: CanStrand(t, 0, x)
  {
    t := SecondStream(id);
    var es :| Runs(Init(), es) && After(Init(), es) == t;
    SafeInit();
    SafeRun(Init(), es);
    assert SlotOk(t, t.heap[0]);
    StrandedExactlyWhenLate(t, 0, t.heap[0].ch.value);
  }
}
