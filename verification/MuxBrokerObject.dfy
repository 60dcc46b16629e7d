/**
 MuxBroker as the object it is: the table, its entries and the place and locals of every goroutine
 are fields updated in place.  Every method keeps the invariant of the model and takes its step.
*/
module MuxBrokerObject {
  import opened Basics
  import opened MuxBroker
  import opened MuxBrokerSafety
  import opened MuxBrokerFate

  class Broker {
    var pending: seq<Pending>
    var streams: map<Id, Ref>
    var run: RunAt
    var waiters: multiset<(Id, Ref)>
    var accepts: seq<AcceptAt>
    var next: nat
    var panicked: bool
    ghost var header: map<Stream, Id>
    ghost var closed: multiset<Stream>

    ghost function Snapshot(): State
      reads this
    {
      State(pending, streams, run, waiters, accepts, next, header, closed, panicked)
    }

    ghost predicate Valid()
      reads this
    {
      Safe(Snapshot())
    }

    constructor ()
      ensures Valid() && Snapshot() == Init()
    {
      pending, streams, run, waiters, accepts, next, panicked := [], map[], Accepting, multiset{}, [], 0, false;
      header, closed := map[], multiset{};
      SafeInit();
    }

    method GetStream(id: Id) returns (p: Ref)
      modifies this`pending, this`streams
      ensures (Snapshot(), p) == MuxBroker.GetStream(old(Snapshot()), id)
      ensures p == (if id in old(streams) then old(streams)[id] else |old(pending)|) && streams == old(streams)[id := p]
      ensures pending == old(pending) + (if id in old(streams) then [] else [Pending(id, None, false, false)])
    {
      if id in streams {
        p := streams[id];
      } else {
        p := |pending|;
        pending, streams := pending + [Pending(id, None, false, false)], streams[id := p];
      }
    }

    // -------------------------------------------------------------- Run

    method RunRoute()
      requires Valid() && Enabled(Snapshot(), OfRun(Route))
      modifies this`pending, this`streams, this`run
      ensures Snapshot() == Next(old(Snapshot()), OfRun(Route)) && Valid()
      ensures old(run.id) in streams && run == Queueing(old(run.s), old(run.id), streams[old(run.id)])
    {
      SafeStep(Snapshot(), OfRun(Route));
      var p := GetStream(run.id);
      run := Queueing(run.s, run.id, p);
    }

    /** Run's select: queue the stream, or close it because the slot is full. */
    method RunQueue()
      requires Valid() && Enabled(Snapshot(), OfRun(Queue))
      modifies this`pending, this`run, this`closed
      ensures Snapshot() == Next(old(Snapshot()), OfRun(Queue)) && Valid()
      ensures if old(pending[run.p].ch.None?)
              then pending == old(pending)[old(run.p) := old(pending[run.p]).(ch := Some(old(run.s)))] &&
                   run == Spawning(old(run.id), old(run.p)) && closed == old(closed)
              else pending == old(pending) && run.Accepting? && closed == old(closed) + multiset{old(run.s)}
    {
      SafeStep(Snapshot(), OfRun(Queue));
      var p := run.p;
      if pending[p].ch.None? {
        pending := pending[p := pending[p].(ch := Some(run.s))];
        run := Spawning(run.id, p);
      } else {
        closed := closed + One(true, run.s);
        run := Accepting;
      }
    }

    /** Accepting a stream and spawning only move Run on ... */
    method MoveRun(e: RunEvent)
      requires Valid() && Enabled(Snapshot(), OfRun(e)) && (e.AcceptStream? || e.AcceptStreamFails? || e.Spawn?)
      modifies this`run, this`next, this`waiters
      ensures Snapshot() == Next(old(Snapshot()), OfRun(e)) && Valid()
      ensures e.AcceptStream? ==> run == Reading(old(next)) && next == old(next) + 1 && waiters == old(waiters)
      ensures e.AcceptStreamFails? ==> run.Stopped? && next == old(next) && waiters == old(waiters)
      ensures e.Spawn? ==> run.Accepting? && next == old(next) && waiters == old(waiters) + multiset{(old(run.id), old(run.p))}
    {
      SafeStep(Snapshot(), OfRun(e));
      match e {
        case AcceptStream => run, next := Reading(next), next + 1;
        case AcceptStreamFails => run := Stopped;
        case Spawn => run, waiters := Accepting, waiters + multiset{(run.id, run.p)};
      }
    }

    /** ... and so does reading its id, which closes a stream that has none. */
    method ReadStream(e: RunEvent)
      requires Valid() && Enabled(Snapshot(), OfRun(e)) && (e.ReadId? || e.ReadFails?)
      modifies this`run, this`header, this`closed
      ensures Snapshot() == Next(old(Snapshot()), OfRun(e)) && Valid()
      ensures e.ReadId? ==> run == Routing(old(run.s), e.id) && header == old(header)[old(run.s) := e.id] && closed == old(closed)
      ensures e.ReadFails? ==> run.Accepting? && header == old(header) && closed == old(closed) + multiset{old(run.s)}
    {
      SafeStep(Snapshot(), OfRun(e));
      if e.ReadId? {
        run, header := Routing(run.s, e.id), header[run.s := e.id];
      } else {
        run, closed := Accepting, closed + One(true, run.s);
      }
    }

    method StepRun(e: RunEvent)
      requires Valid() && Enabled(Snapshot(), OfRun(e))
      modifies this
      ensures Snapshot() == Next(old(Snapshot()), OfRun(e)) && Valid()
    {
      if e.Route? {
        RunRoute();
      } else if e.Queue? {
        RunQueue();
      } else if e.ReadId? || e.ReadFails? {
        ReadStream(e);
      } else {
        MoveRun(e);
      }
    }

    // -------------------------------------------------------------- timeoutWait and Accept

    method Reap(id: Id, p: Ref, timeout: bool)
      requires WaitEnabled(Snapshot(), id, p, timeout)
      modifies this`pending, this`streams, this`waiters, this`closed
      ensures Snapshot() == TimeoutWaitStep(old(Snapshot()), id, p, timeout)
      ensures streams == old(streams) - {id} && waiters == old(waiters) - multiset{(id, p)}
      ensures if timeout && old(pending[p].ch.Some?)
              then pending == old(pending)[p := old(pending[p]).(ch := None)] &&
                   closed == old(closed) + multiset{old(pending[p].ch.value)}
              else pending == old(pending) && closed == old(closed)
    {
      waiters := waiters - multiset{(id, p)};
      streams := streams - {id};
      if timeout {
        if pending[p].ch.Some? {
          closed := closed + One(true, pending[p].ch.value);
          pending := pending[p := pending[p].(ch := None)];
        }
      }
    }

    /** timeoutWait after its select: forget the id, and on a timeout close a stream left in the slot. */
    method TimeoutWait(id: Id, p: Ref, timeout: bool)
      requires Valid() && Enabled(Snapshot(), Event.TimeoutWait(id, p, timeout))
      modifies this`pending, this`streams, this`waiters, this`closed
      ensures Snapshot() == Next(old(Snapshot()), Event.TimeoutWait(id, p, timeout)) && Valid()
      ensures streams == old(streams) - {id} && waiters == old(waiters) - multiset{(id, p)}
      ensures if timeout && old(pending[p].ch.Some?)
              then pending == old(pending)[p := old(pending[p]).(ch := None)] &&
                   closed == old(closed) + multiset{old(pending[p].ch.value)}
              else pending == old(pending) && closed == old(closed)
    {
      SafeStep(Snapshot(), Event.TimeoutWait(id, p, timeout));
      Reap(id, p, timeout);
    }

    method AcceptStart(id: Id)
      requires Valid() && Enabled(Snapshot(), OfAccept(Start(id)))
      modifies this`pending, this`streams, this`accepts
      ensures Snapshot() == Next(old(Snapshot()), OfAccept(Start(id))) && Valid()
      ensures id in streams && accepts == old(accepts) + [Waiting(id, streams[id])]
    {
      SafeStep(Snapshot(), OfAccept(Start(id)));
      var p := GetStream(id);
      accepts := accepts + [Waiting(id, p)];
    }

    method AcceptTake(i: nat)
      requires Valid() && Enabled(Snapshot(), OfAccept(Take(i)))
      modifies this`pending, this`accepts
      ensures Snapshot() == Next(old(Snapshot()), OfAccept(Take(i))) && Valid()
      ensures var a := old(accepts[i]);
              && pending == old(pending)[a.p := old(pending[a.p]).(ch := None, taken := true)]
              && accepts == old(accepts)[i := Took(a.id, a.p, old(pending[a.p].ch.value))]
    {
      SafeStep(Snapshot(), OfAccept(Take(i)));
      var id, p := accepts[i].id, accepts[i].p;
      var c := pending[p].ch.value;
      pending := pending[p := pending[p].(ch := None, taken := true)];
      accepts := accepts[i := Took(id, p, c)];
    }

    /** close(p.doneCh): a second close is a panic. */
    method AcceptClose(i: nat)
      requires Valid() && Enabled(Snapshot(), OfAccept(Close(i)))
      modifies this`pending, this`accepts, this`panicked
      ensures Snapshot() == Next(old(Snapshot()), OfAccept(Close(i))) && Valid()
      ensures var a := old(accepts[i]);
              && (panicked <==> old(pending[a.p].done))
              && (!panicked ==> pending == old(pending)[a.p := old(pending[a.p]).(done := true)]
                                && accepts == old(accepts)[i := Acking(a.id, a.s)])
    {
      SafeStep(Snapshot(), OfAccept(Close(i)));
      var p := accepts[i].p;
      if pending[p].done {
        panicked := true;
      } else {
        pending := pending[p := pending[p].(done := true)];
        accepts := accepts[i := Acking(accepts[i].id, accepts[i].s)];
      }
    }

    /** The ack: `ok` is what the write answers.  What is returned was opened for this id. */
    method AcceptAck(i: nat, ok: bool) returns (r: Option<Stream>)
      requires Valid() && Enabled(Snapshot(), OfAccept(Ack(i, ok)))
      modifies this`accepts, this`closed
      ensures Snapshot() == Next(old(Snapshot()), OfAccept(Ack(i, ok))) && Valid()
      ensures r == if ok then Some(old(accepts[i].s)) else None
      ensures r.Some? ==> r.value in header && header[r.value] == old(accepts[i].id)
      ensures accepts == old(accepts)[i := if ok then Returned(old(accepts[i].id), old(accepts[i].s)) else Failed]
      ensures closed == if ok then old(closed) else old(closed) + multiset{old(accepts[i].s)}
    {
      SafeStep(Snapshot(), OfAccept(Ack(i, ok)));
      assert AcceptOk(Snapshot(), accepts[i]);
      var id, c := accepts[i].id, accepts[i].s;
      if !ok {
        accepts, closed := accepts[i := Failed], closed + One(true, c);
        return None;
      }
      accepts := accepts[i := Returned(id, c)];
      return Some(c);
    }

    method AcceptTimeout(i: nat)
      requires Valid() && Enabled(Snapshot(), OfAccept(Timeout(i)))
      modifies this`streams, this`accepts
      ensures Snapshot() == Next(old(Snapshot()), OfAccept(Timeout(i))) && Valid()
      ensures streams == old(streams) - {old(accepts[i].id)} && accepts == old(accepts)[i := Failed]
    {
      SafeStep(Snapshot(), OfAccept(Timeout(i)));
      streams := streams - {accepts[i].id};
      accepts := accepts[i := Failed];
    }

    method StepAccept(e: AcceptEvent)
      requires Valid() && Enabled(Snapshot(), OfAccept(e))
      modifies this
      ensures Snapshot() == Next(old(Snapshot()), OfAccept(e)) && Valid()
    {
      match e {
        case Start(id) => AcceptStart(id);
        case Take(i) => AcceptTake(i);
        case Close(i) => AcceptClose(i);
        case Ack(i, ok) => var r := AcceptAck(i, ok);
        case Timeout(i) => AcceptTimeout(i);
      }
    }

    // -------------------------------------------------------------- any interleaving

    method Step(e: Event)
      requires Valid() && Enabled(Snapshot(), e)
      modifies this
      ensures Snapshot() == Next(old(Snapshot()), e) && Valid()
    {
      match e {
        case OfRun(r) => StepRun(r);
        case TimeoutWait(id, p, timeout) => TimeoutWait(id, p, timeout);
        case OfAccept(a) => StepAccept(a);
      }
    }

    /** The object, driven through any interleaving: every stream is in one place, once all is quiet no
        key is left and only slots that were read before are full, and without a second read of an entry,
        or with one Accept of each id, nothing panics. */
    method Drive(es: seq<Event>)
      requires Snapshot() == Init() && Runs(Snapshot(), es)
      modifies this
      ensures Valid() && Snapshot() == After(old(Snapshot()), es)
      ensures forall x: Stream :: Conserved(Snapshot(), x)
      ensures Quiet(Snapshot()) ==>
                streams == map[] && forall p :: 0 <= p < |pending| && pending[p].ch.Some? ==> pending[p].taken
      ensures FreshTakes(old(Snapshot()), es) || AcceptsEachOnce(es) ==> !panicked
    {
      SafeInit();
      for i := 0 to |es|
        invariant Valid() && Runs(Snapshot(), es[i..])
        invariant After(Snapshot(), es[i..]) == After(old(Snapshot()), es)
      {
        assert es[i..][0] == es[i] && es[i..][1..] == es[i + 1..];
        Step(es[i]);
      }
      if Quiet(Snapshot()) {
        NothingLeftBehind(Snapshot());
      }
      if FreshTakes(old(Snapshot()), es) {
        FreshTakesNeverPanic(es);
      }
      if AcceptsEachOnce(es) {
        AcceptingEachIdOnceNeverPanics(es);
      }
    }
  }
}
