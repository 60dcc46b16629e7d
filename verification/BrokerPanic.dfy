/** When a Dial without multiplexing closes a done channel twice, which brings the process down. */
module BrokerPanic {
  import opened Basics
  import opened Broker
  import opened BrokerSafety

  // ---------------------------------------------------------------- reads of an entry

  /** Two Dials have read entry `a.p` and closed nothing yet. */
  predicate Twice(s: State, a: DialAt, b: DialAt)
  {
    a.DialTook? && b.DialTook? && a.p == b.p && multiset{a, b} <= s.dials
  }

  /** A Dial has read an entry that an earlier Dial has closed. */
  predicate Again(s: State, a: DialAt)
  {
    a.DialTook? && a in s.dials && a.p < |s.tables.heap| && s.tables.heap[a.p].done
  }

  /** No entry has been read by two Dials that have not both gone on. */
  ghost predicate Once(s: State)
  {
    (forall a, b :: !Twice(s, a, b)) && (forall a :: !Again(s, a))
  }

  ghost predicate Unread(s: State, p: Ref)
  {
    (p < |s.tables.heap| ==> !s.tables.heap[p].done) && forall a :: a in s.dials && a.DialTook? ==> a.p != p
  }

  /** No Dial reads an entry that was read before. */
  ghost predicate FreshReads(s: State, es: seq<Event>)
    requires Runs(s, es)
    decreases es
  {
    es == [] ||
    ((es[0].OfDial? && es[0].d.DialTake? ==> Unread(s, es[0].d.p)) && FreshReads(Next(s, es[0]), es[1..]))
  }

  lemma {:induction false} OnceTake(s: State, id: Id, p: Ref)
    requires Once(s) && DialEnabled(s, DialTake(id, p)) && Unread(s, p)
    ensures Once(DialNext(s, DialTake(id, p)))
  {
    var s', took := DialNext(s, DialTake(id, p)), DialTook(id, p, s.tables.heap[p].ch.value);
    assert took !in s.dials && s'.dials[took] == 1;
    forall a, b ensures !Twice(s', a, b) { assert !Twice(s, a, b); }
    forall a ensures !Again(s', a) { assert !Again(s, a); }
  }

  lemma {:induction false} OnceFinish(s: State, id: Id, p: Ref, m: ConnInfo)
    requires Once(s) && DialEnabled(s, DialFinish(id, p, m))
    ensures Once(DialFinishStep(s, id, p, m)) && !s.tables.heap[p].done
  {
    var s', took := DialFinishStep(s, id, p, m), DialTook(id, p, m);
    assert !Again(s, took);
    forall a, b ensures !Twice(s', a, b) { assert !Twice(s, a, b); }
    forall a ensures !Again(s', a) {
      if Again(s', a) {
        assert !Again(s, a);
        assert Twice(s, a, took);
      }
    }
  }

  lemma {:induction false} OnceListen(s: State, e: ListenEvent)
    requires Once(s) && Separated(s) && ListenEnabled(s, e)
    ensures Once(ListenNext(s, e))
  {
    var s' := ListenNext(s, e);
    forall a, b ensures !Twice(s', a, b) { assert !Twice(s, a, b); }
    forall a ensures !Again(s', a) {
      assert !Again(s, a) && (a in s.dials ==> DialOk(s.tables.heap, a));
    }
  }

  lemma {:induction false} OnceSame(s: State, s': State)
    requires Once(s) && GoroutinesOk(s.tables.heap, s) && |s.tables.heap| <= |s'.tables.heap|
    requires forall a: DialAt :: a.DialTook? ==> s'.dials[a] <= s.dials[a]
    requires forall p :: 0 <= p < |s.tables.heap| ==> s'.tables.heap[p].done == s.tables.heap[p].done
    ensures Once(s')
  {
    forall a, b ensures !Twice(s', a, b) { assert !Twice(s, a, b); }
    forall a ensures !Again(s', a) {
      assert !Again(s, a) && (a in s.dials ==> DialOk(s.tables.heap, a));
    }
  }

  lemma {:induction false} OnceRunStep(s: State, e: RunEvent)
    requires Once(s) && Separated(s) && RunEnabled(s, e)
    ensures Once(RunNext(s, e))
  {
    OnceSame(s, RunNext(s, e));
  }

  lemma {:induction false} OnceKnock(s: State, e: KnockEvent)
    requires Once(s) && Separated(s) && KnockEnabled(s, e)
    ensures Once(KnockNext(s, e))
  {
    assert KnockNext(s, e).dials == s.dials;
    OnceSame(s, KnockNext(s, e));
  }

  lemma {:induction false} OnceDial(s: State, e: DialEvent)
    requires Once(s) && Separated(s) && DialEnabled(s, e) && (e.DialTake? ==> Unread(s, e.p))
    ensures Once(DialNext(s, e)) && (e.DialFinish? ==> !s.tables.heap[e.p].done)
  {
    match e
    case DialTake(id, p) => OnceTake(s, id, p);
    case DialFinish(id, p, m) => OnceFinish(s, id, p, m);
    case _ => OnceSame(s, DialNext(s, e));
  }

  lemma {:induction false} OnceStep(s: State, e: Event)
    requires Once(s) && Separated(s) && Enabled(s, e)
    requires e.OfDial? && e.d.DialTake? ==> Unread(s, e.d.p)
    ensures Once(Next(s, e)) && !Next(s, e).panicked
  {
    match e
    case OfRun(r) => OnceRunStep(s, r);
    case OfDial(d) => OnceDial(s, d);
    case OfKnock(k) => OnceKnock(s, k);
    case OfListen(l) => OnceListen(s, l);
  }

  lemma {:induction false} OnceRun(s: State, es: seq<Event>)
    requires Once(s) && Safe(s) && !s.panicked && Runs(s, es) && FreshReads(s, es)
    ensures !After(s, es).panicked
    decreases es
  {
    if es != [] {
      OnceStep(s, es[0]);
      SafeStep(s, es[0]);
      OnceRun(Next(s, es[0]), es[1..]);
    }
  }

  /** No run in which no entry is read twice panics, whatever the peer sends. */
  lemma {:induction false} FreshReadsNeverPanic(mux: bool, translator: Option<Translator>, es: seq<Event>)
    requires Runs(Init(mux, translator), es) && FreshReads(Init(mux, translator), es)
    ensures !After(Init(mux, translator), es).panicked
  {
    SafeInit(mux, translator);
    OnceRun(Init(mux, translator), es);
  }

  // ---------------------------------------------------------------- what a caller can do about it

  /** A Dial(id) is under way, or one has received an address. */
  ghost predicate InUse(s: State, id: Id)
  {
    (exists a :: a in s.dials && a.id == id) || exists p: Ref :: Served(s.tables.heap, p, id)
  }

  predicate Served(h: seq<Pending>, p: Ref, id: Id)
  {
    p < |h| && h[p].id == id && !h[p].knocks && h[p].done
  }

  /** Dial(id) is called only while no Dial(id) is under way or has received an address. */
  ghost predicate NewDials(s: State, es: seq<Event>)
    requires Runs(s, es)
    decreases es
  {
    es == [] ||
    ((es[0].OfDial? && es[0].d.DialStart? ==> !InUse(s, es[0].d.id)) && NewDials(Next(s, es[0]), es[1..]))
  }

  predicate Both(s: State, a: DialAt, b: DialAt)
  {
    a.id == b.id && a in s.dials && b in s.dials && (a == b ==> s.dials[a] > 1)
  }

  /** At most one Dial of each id is under way, and none of an id that was served. */
  ghost predicate Solo(s: State)
  {
    (forall a, b :: !Both(s, a, b)) && (forall a, p: Ref :: a in s.dials ==> !Served(s.tables.heap, p, a.id))
  }

  lemma {:induction false} SoloSame(s: State, s': State)
    requires Solo(s) && s'.dials <= s.dials
    requires forall p: Ref, id: Id :: Served(s'.tables.heap, p, id) ==> Served(s.tables.heap, p, id)
    ensures Solo(s')
  {
    forall a, b ensures !Both(s', a, b) { assert !Both(s, a, b); }
  }

  lemma {:induction false} SoloStart(s: State, id: Id)
    requires Solo(s) && DialEnabled(s, DialStart(id)) && !InUse(s, id)
    ensures Solo(DialNext(s, DialStart(id)))
  {
    var s' := DialNext(s, DialStart(id));
    forall a, b ensures !Both(s', a, b) {
      assert !Both(s, a, b) && (a in s.dials ==> a.id != id) && (b in s.dials ==> b.id != id);
    }
    forall a, p: Ref | a in s'.dials ensures !Served(s'.tables.heap, p, a.id) {
      assert (a in s.dials || a.id == id) && !Served(s.tables.heap, p, a.id);
    }
  }

  lemma {:induction false} SoloTake(s: State, id: Id, p: Ref)
    requires Solo(s) && DialEnabled(s, DialTake(id, p))
    ensures Solo(DialNext(s, DialTake(id, p)))
  {
    var s', was, took := DialNext(s, DialTake(id, p)), DialWaiting(id, p), DialTook(id, p, s.tables.heap[p].ch.value);
    assert !Both(s, was, was) && !Both(s, took, was);
    forall a, b ensures !Both(s', a, b) {
      assert !Both(s, a, b) && !Both(s, a, was) && !Both(s, b, was);
    }
    SoloServed(s, s', was, took);
  }

  lemma {:induction false} SoloServed(s: State, s': State, was: DialAt, took: DialAt)
    requires Solo(s) && was in s.dials && was.id == took.id
    requires forall a :: a in s'.dials ==> a in s.dials || a == took
    requires forall p: Ref, id: Id :: Served(s'.tables.heap, p, id) ==> Served(s.tables.heap, p, id)
    ensures forall a, p: Ref :: a in s'.dials ==> !Served(s'.tables.heap, p, a.id)
  {
  }

  lemma {:induction false} SoloFinish(s: State, id: Id, p: Ref, m: ConnInfo)
    requires Solo(s) && Separated(s) && DialEnabled(s, DialFinish(id, p, m))
    ensures Solo(DialFinishStep(s, id, p, m))
  {
    var s', took := DialFinishStep(s, id, p, m), DialTook(id, p, m);
    assert DialOk(s.tables.heap, took) && !Served(s.tables.heap, p, id);
    forall a, b ensures !Both(s', a, b) { assert !Both(s, a, b); }
    forall a, q: Ref | a in s'.dials ensures !Served(s'.tables.heap, q, a.id) {
      assert !Both(s, a, took) && !Served(s.tables.heap, q, a.id);
    }
  }

  lemma {:induction false} SoloListen(s: State, e: ListenEvent)
    requires Solo(s) && Separated(s) && ListenEnabled(s, e)
    ensures Solo(ListenNext(s, e))
  {
    if e.CloseDoor? {
      assert ListenerOk(s.tables.heap, s.listeners[e.i]);
    }
    SoloSame(s, ListenNext(s, e));
  }

  lemma {:induction false} SoloDial(s: State, e: DialEvent)
    requires Solo(s) && Separated(s) && DialEnabled(s, e) && (e.DialStart? ==> !InUse(s, e.id))
    ensures Solo(DialNext(s, e))
  {
    match e
    case DialStart(id) => SoloStart(s, id);
    case DialTake(id, p) => SoloTake(s, id, p);
    case DialFinish(id, p, m) => SoloFinish(s, id, p, m);
    case _ => SoloSame(s, DialNext(s, e));
  }

  lemma {:induction false} SoloRunStep(s: State, e: RunEvent)
    requires Solo(s) && RunEnabled(s, e)
    ensures Solo(RunNext(s, e))
  {
    SoloSame(s, RunNext(s, e));
  }

  lemma {:induction false} SoloStep(s: State, e: Event)
    requires Solo(s) && Separated(s) && Enabled(s, e) && (e.OfDial? && e.d.DialStart? ==> !InUse(s, e.d.id))
    ensures Solo(Next(s, e))
  {
    match e
    case OfRun(r) => SoloRunStep(s, r);
    case OfDial(d) => SoloDial(s, d);
    case OfKnock(k) => SoloSame(s, KnockNext(s, k));
    case OfListen(l) => SoloListen(s, l);
  }

  lemma {:induction false} SoloReadIsFresh(s: State, id: Id, p: Ref)
    requires Solo(s) && Separated(s) && DialEnabled(s, DialTake(id, p))
    ensures Unread(s, p)
  {
    var was := DialWaiting(id, p);
    assert DialOk(s.tables.heap, was) && !Served(s.tables.heap, p, id);
    forall a | a in s.dials && a.DialTook? ensures a.p != p {
      assert DialOk(s.tables.heap, a) && !Both(s, a, was);
    }
  }

  lemma {:induction false} NewDialsAreFresh(s: State, es: seq<Event>)
    requires Safe(s) && Solo(s) && Runs(s, es) && NewDials(s, es)
    ensures FreshReads(s, es)
    decreases es
  {
    if es != [] {
      if es[0].OfDial? && es[0].d.DialTake? {
        SoloReadIsFresh(s, es[0].d.id, es[0].d.p);
      }
      SoloStep(s, es[0]);
      SafeStep(s, es[0]);
      NewDialsAreFresh(Next(s, es[0]), es[1..]);
    }
  }

  /** If Dial(id) is called only while no Dial(id) is under way or has received an address, the process
      is never brought down, whatever the peer sends: it may send any number of addresses for one id. */
  lemma {:induction false} NewDialsNeverPanic(mux: bool, translator: Option<Translator>, es: seq<Event>)
    requires Runs(Init(mux, translator), es) && NewDials(Init(mux, translator), es)
    ensures !After(Init(mux, translator), es).panicked
  {
    SafeInit(mux, translator);
    NewDialsAreFresh(Init(mux, translator), es);
    FreshReadsNeverPanic(mux, translator, es);
  }

  predicate Dials(e: Event, id: Id)
  {
    e == OfDial(DialStart(id))
  }

  /** Dial is called at most once for each id. */
  ghost predicate DialsEachOnce(es: seq<Event>)
  {
    forall id: Id, i, j :: 0 <= i < j < |es| && Dials(es[i], id) ==> !Dials(es[j], id)
  }

  lemma {:induction false} UseSame(s: State, s': State, id: Id)
    requires !InUse(s, id) && s'.dials <= s.dials
    requires forall p: Ref :: Served(s'.tables.heap, p, id) ==> Served(s.tables.heap, p, id)
    ensures !InUse(s', id)
  {
  }

  lemma {:induction false} UseFinish(s: State, key: Id, p: Ref, m: ConnInfo, id: Id)
    requires Separated(s) && DialEnabled(s, DialFinish(key, p, m)) && !InUse(s, id)
    ensures !InUse(DialFinishStep(s, key, p, m), id)
  {
    assert DialOk(s.tables.heap, DialTook(key, p, m));
    assert key != id;
    UseSame(s, DialFinishStep(s, key, p, m), id);
  }

  lemma {:induction false} UseMore(s: State, s': State, d: DialAt, id: Id)
    requires !InUse(s, id) && d.id != id && forall a :: a in s'.dials ==> a in s.dials || a == d
    requires forall p: Ref :: Served(s'.tables.heap, p, id) ==> Served(s.tables.heap, p, id)
    ensures !InUse(s', id)
  {
  }

  lemma {:induction false} UseStart(s: State, key: Id, id: Id)
    requires DialEnabled(s, DialStart(key)) && key != id && !InUse(s, id)
    ensures !InUse(DialNext(s, DialStart(key)), id)
  {
    UseMore(s, DialNext(s, DialStart(key)), DialWaiting(key, GetClient(s.tables, key).1), id);
  }

  lemma {:induction false} UseTake(s: State, key: Id, p: Ref, id: Id)
    requires DialEnabled(s, DialTake(key, p)) && !InUse(s, id)
    ensures !InUse(DialNext(s, DialTake(key, p)), id)
  {
    assert DialWaiting(key, p).id != id;
    UseMore(s, DialNext(s, DialTake(key, p)), DialTook(key, p, s.tables.heap[p].ch.value), id);
  }

  lemma {:induction false} UseDial(s: State, e: DialEvent, id: Id)
    requires Separated(s) && DialEnabled(s, e) && e != DialStart(id) && !InUse(s, id)
    ensures !InUse(DialNext(s, e), id)
  {
    match e
    case DialStart(key) => UseStart(s, key, id);
    case DialTake(key, p) => UseTake(s, key, p, id);
    case DialFinish(key, p, m) => UseFinish(s, key, p, m, id);
    case _ => UseSame(s, DialNext(s, e), id);
  }

  lemma {:induction false} UseListen(s: State, e: ListenEvent, id: Id)
    requires Separated(s) && ListenEnabled(s, e) && !InUse(s, id)
    ensures !InUse(ListenNext(s, e), id)
  {
    if e.CloseDoor? {
      assert ListenerOk(s.tables.heap, s.listeners[e.i]);
    }
    UseSame(s, ListenNext(s, e), id);
  }

  lemma {:induction false} UseRun(s: State, e: RunEvent, id: Id)
    requires RunEnabled(s, e) && !InUse(s, id)
    ensures !InUse(RunNext(s, e), id)
  {
    UseSame(s, RunNext(s, e), id);
  }

  /** Only a call of Dial puts an id to use. */
  lemma {:induction false} UseStep(s: State, e: Event, id: Id)
    requires Separated(s) && Enabled(s, e) && !Dials(e, id) && !InUse(s, id)
    ensures !InUse(Next(s, e), id)
  {
    match e
    case OfRun(r) => UseRun(s, r, id);
    case OfDial(d) => UseDial(s, d, id);
    case OfKnock(k) => UseSame(s, KnockNext(s, k), id);
    case OfListen(l) => UseListen(s, l, id);
  }

  lemma {:induction false} EachOnceIsNew(s: State, es: seq<Event>)
    requires Safe(s) && Runs(s, es) && DialsEachOnce(es)
    requires forall id: Id, i :: 0 <= i < |es| && Dials(es[i], id) ==> !InUse(s, id)
    ensures NewDials(s, es)
    decreases es
  {
    if es != [] {
      var e, rest := es[0], es[1..];
      assert e.OfDial? && e.d.DialStart? ==> Dials(es[0], e.d.id);
      forall id: Id, i | 0 <= i < |rest| && Dials(rest[i], id) ensures !InUse(Next(s, e), id) {
        assert rest[i] == es[i + 1] && Dials(es[i + 1], id);
        UseStep(s, e, id);
      }
      SafeStep(s, e);
      assert DialsEachOnce(rest) by {
        forall id: Id, i, j | 0 <= i < j < |rest| && Dials(rest[i], id) ensures !Dials(rest[j], id) {
          assert rest[i] == es[i + 1] && rest[j] == es[j + 1];
        }
      }
      EachOnceIsNew(Next(s, e), rest);
    }
  }

  /** So a process that dials each id at most once is never brought down. */
  lemma {:induction false} DialingEachIdOnceNeverPanics(mux: bool, translator: Option<Translator>, es: seq<Event>)
    requires Runs(Init(mux, translator), es) && DialsEachOnce(es)
    ensures !After(Init(mux, translator), es).panicked
  {
    SafeInit(mux, translator);
    EachOnceIsNew(Init(mux, translator), es);
    NewDialsNeverPanic(mux, translator, es);
  }

  // ---------------------------------------------------------------- a second read is fatal

  /** Dials that have read their entries go on, and nothing else happens. */
  predicate GoOn(es: seq<Event>)
  {
    forall i :: 0 <= i < |es| ==> es[i].OfDial? && es[i].d.DialFinish?
  }

  function Finish(a: DialAt): Event
    requires a.DialTook?
  {
    OfDial(DialFinish(a.id, a.p, a.msg))
  }

  lemma {:induction false} GoOnFresh(s: State, es: seq<Event>)
    requires Runs(s, es) && GoOn(es)
    ensures FreshReads(s, es)
    decreases es
  {
    if es != [] {
      GoOnFresh(Next(s, es[0]), es[1..]);
    }
  }

  /** Going on in this order panics. */
  ghost predicate Fatal(s: State, es: seq<Event>)
  {
    GoOn(es) && Runs(s, es) && After(s, es).panicked
  }

  lemma {:induction false} AgainIsFatal(s: State, a: DialAt)
    requires !s.mux && !s.panicked && Again(s, a)
    ensures Fatal(s, [Finish(a)] + [])
  {
    RunsPrepend(s, Finish(a), []);
  }

  lemma {:induction false} TwiceIsFatal(s: State, a: DialAt, b: DialAt)
    requires Separated(s) && !s.mux && !s.panicked && Twice(s, a, b) && !Again(s, a)
    ensures Fatal(s, [Finish(a)] + ([Finish(b)] + []))
  {
    assert a in s.dials && DialOk(s.tables.heap, a);
    assert Again(Next(s, Finish(a)), b);
    AgainIsFatal(Next(s, Finish(a)), b);
    RunsPrepend(s, Finish(a), [Finish(b)] + []);
  }

  lemma {:induction false} SecondReadIsFatal(s: State) returns (es: seq<Event>)
    requires Separated(s) && !s.mux && !s.panicked && !Once(s)
    ensures Fatal(s, es)
  {
    if a :| Again(s, a) {
      es := [Finish(a)] + [];
      AgainIsFatal(s, a);
    } else {
      var a, b :| Twice(s, a, b);
      es := [Finish(a)] + ([Finish(b)] + []);
      TwiceIsFatal(s, a, b);
    }
  }

  /** At every safe state, Dials that go on from where they are bring the process down if and only if
      some entry has been read twice. */
  lemma {:induction false} PanicsExactlyOnSecondRead(s: State)
    requires Safe(s) && !s.mux && !s.panicked
    ensures (exists es :: Fatal(s, es)) <==> !Once(s)
  {
    if !Once(s) {
      var es := SecondReadIsFatal(s);
    } else if es :| Fatal(s, es) {
      GoOnFresh(s, es);
      OnceRun(s, es);
    }
  }

  /** One Dial(id) is served from entry 0 by message `m`, which arrives as the only one in flight. */
  lemma {:induction false} DialIsServed(z: State, s: State, id: Id, m: ConnInfo) returns (t: State)
    requires Reaches(z, s) && !s.mux && !s.panicked && s.run.Receiving? && s.dials == multiset{}
    requires m.serviceId == id && !IsKnock(m)
    requires s.tables.heap == [] || (|s.tables.heap| == 1 && s.tables.heap[0].ch.None?)
    requires s.tables.clientStreams == if s.tables.heap == [] then map[] else map[id := 0]
    ensures Reaches(z, t) && !t.mux && !t.panicked && t.run.Receiving? && t.dials == multiset{DialTook(id, 0, m)}
    ensures t.tables.clientStreams == map[id := 0] && |t.tables.heap| == 1 && t.tables.heap[0].ch.None?
    ensures s.tables.heap != [] ==> t.tables.heap[0].done == s.tables.heap[0].done
    ensures s.tables.heap == [] ==> !t.tables.heap[0].done
  {
    t := Extend(z, s, OfDial(DialStart(id)));
    t := Extend(z, t, OfRun(Recv(m)));
    t := Extend(z, t, OfRun(Route));
    t := Extend(z, t, OfRun(Queue));
    t := Extend(z, t, OfRun(Spawn));
    t := Extend(z, t, OfDial(DialTake(id, 0)));
  }

  /** For every id, two Dials that are served from one entry bring the process down. */
  lemma {:induction false} TwoDialsOnOneEntryPanic(translator: Option<Translator>, id: Id, at: NetAddr) returns (t: State)
    ensures Reaches(Init(false, translator), t) && t.panicked
  {
    var z := Init(false, translator);
    ReachesSelf(z);
    t := DialIsServed(z, z, id, AddrMsg(id, at));
    t := Extend(z, t, OfDial(DialFinish(id, 0, AddrMsg(id, at))));
    t := DialIsServed(z, t, id, AddrMsg(id, at));
    t := Extend(z, t, OfDial(DialFinish(id, 0, AddrMsg(id, at))));
  }
}
