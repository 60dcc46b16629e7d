/** What Start and Kill do for their callers: which plugins are killed, and how a client lives and ends. */
module LifecycleFate {
  import opened Basics
  import opened Lifecycle
  import opened LifecycleSafety

  // ---------------------------------------------------------------- a failed Start kills its plugin

  /** Launch `n`, if its runner was started and its Start is over, was killed, or it is the latest one and
      Start recorded an address. */
  ghost predicate Accounted(s: State, n: nat)
  {
    n < |s.launches| && s.launches[n].started && !StartingOn(s, n) ==>
      s.launches[n].killed || (s.address && n == |s.launches| - 1)
  }

  /** A client with an address launches nothing more. */
  ghost predicate Settled(s: State)
  {
    (s.address ==> s.start.None?) && forall n: nat :: Accounted(s, n)
  }

  lemma {:induction false} SettledStart(s: State, e: StartEvent)
    requires Settled(s) && Ordered(s) && StartEnabled(s, e)
    ensures Settled(StartNext(s, e))
  {
    forall n: nat ensures Accounted(StartNext(s, e), n) {
      assert Accounted(s, n) && LaunchOk(s, n);
      match e
      case StartCall => case StartRefused => case SetRunner(_) => case RunnerStart(_) => case MakeCtx =>
      case SelectTimeout => case SelectExited => case SelectLine(_) => case StartReturn => case _ =>
    }
  }

  lemma {:induction false} SettledGo(s: State, e: GoEvent)
    requires Settled(s) && GoEnabled(s, e)
    ensures Settled(GoNext(s, e))
  {
    forall n: nat ensures Accounted(GoNext(s, e), n) {
      assert Accounted(s, n);
      match e
      case StderrEnds(_) => case StderrLeaves(_) => case StdoutEnds(_) => case StdoutLeaves(_) => case DrainEnds(_) =>
      case WaiterCaptures(_) => case WaiterPassesPipes(_) => case WaiterReaps(_) => case WaiterMarks(_) =>
      case WaiterLeaves(_) => case WaiterCancels(_) =>
    }
  }

  lemma {:induction false} KillKeepsAddress(s: State, e: KillEvent)
    requires KillEnabled(s, e)
    ensures KillNext(s, e).address == s.address
  {
  }

  lemma {:induction false} SettledKill(s: State, e: KillEvent)
    requires Settled(s) && KillEnabled(s, e)
    ensures Settled(KillNext(s, e))
  {
    KillLeavesLaunches(s, e);
    KillKeepsAddress(s, e);
    forall n: nat ensures Accounted(KillNext(s, e), n) { assert Accounted(s, n); }
  }

  lemma {:induction false} SettledRun(s: State, es: seq<Event>)
    requires Safe(s) && Settled(s) && Runs(s, es)
    ensures Settled(After(s, es))
    decreases es
  {
    if es != [] {
      match es[0] {
        case OfStart(e) => SettledStart(s, e);
        case OfGo(g) => SettledGo(s, g);
        case OfKill(k) => SettledKill(s, k);
      }
      SafeStep(s, es[0]);
      SettledRun(Next(s, es[0]), es[1..]);
    }
  }

  /** In every run every plugin that was started and whose Start is over was killed, unless that Start
      recorded an address; then no other launch follows it. */
  lemma {:induction false} FailedStartsAreKilled(self: Client, isManaged: bool, others: seq<Client>, es: seq<Event>, n: nat)
    requires Distinct(others) && self !in others && Runs(Init(self, isManaged, others), es)
    requires var s := After(Init(self, isManaged, others), es);
             n < |s.launches| && s.launches[n].started && !StartingOn(s, n) && !s.launches[n].killed
    ensures var s := After(Init(self, isManaged, others), es);
            s.address && s.start.None? && n == |s.launches| - 1
  {
    SafeInit(self, isManaged, others);
    SettledRun(Init(self, isManaged, others), es);
    assert Accounted(After(Init(self, isManaged, others), es), n);
  }

  // ---------------------------------------------------------------- a Kill without a runner

  ghost predicate Untouched(s: State)
  {
    s.runner.None? && s.gate.Fresh? && s.pendingKills == 0 && s.launches == [] && (s.start.None? || s.start == Some(Checking))
  }

  lemma {:induction false} UntouchedStep(s: State, e: Event)
    requires Untouched(s) && GateOk(s) && Enabled(s, e) && !(e.OfStart? && e.e.SetRunner?)
    ensures Untouched(Next(s, e))
  {
  }

  /** Until a Start has a runner, any number of Kills leave the gate fresh and nobody waiting at it. */
  lemma {:induction false} EarlyKillsKeepTheGate(s: State, es: seq<Event>)
    requires Safe(s) && Untouched(s) && Runs(s, es) && forall e | e in es :: !(e.OfStart? && e.e.SetRunner?)
    ensures Untouched(After(s, es))
    decreases es
  {
    if es != [] {
      assert es[0] in es;
      UntouchedStep(s, es[0]);
      SafeStep(s, es[0]);
      EarlyKillsKeepTheGate(Next(s, es[0]), es[1..]);
    }
  }

  /** In every run a Kill that waited at the gate for another one's body returns only once that body has
      ended and cleaned up. */
  lemma {:induction false} KillReturnsAfterTheBody(self: Client, isManaged: bool, others: seq<Client>, es: seq<Event>)
    requires Distinct(others) && self !in others && Runs(Init(self, isManaged, others), es)
    requires Enabled(After(Init(self, isManaged, others), es), OfKill(OnceReturns))
    ensures After(Init(self, isManaged, others), es).body.Ended? && CleanedUp(After(Init(self, isManaged, others), es))
  {
    SafeInit(self, isManaged, others);
    SafeRun(Init(self, isManaged, others), es);
    Promises(After(Init(self, isManaged, others), es));
  }

  // ---------------------------------------------------------------- one whole life

  /** A launch with all its goroutines under way. */
  function Running(killed: bool, drain: Drain): Launch
  {
    Launch(true, true, true, killed, Reading, Reading, drain, Created)
  }

  /** The same once the plugin is gone and its goroutines have left. */
  function Over(killed: bool): Launch
  {
    Launch(true, true, true, killed, Finished, Finished, Drained, Cancelled(0))
  }

  lemma {:induction false} Launches(z: State) returns (t: State)
    requires z.start.None? && !z.address && z.launches == [] && z.pipes == 0 && z.clients == 0
    ensures Reaches(z, t)
    ensures t == z.(launches := [Launch(true, true, true, false, Reading, Reading, NotAdded, Created)], runner := Some(0),
                    doneCtx := Some(0), pipes := 2, clients := 3, start := Some(Launching(0, StdoutGoing)))
  {
    assert Runs(z, []) && After(z, []) == z;
    t := Extend(z, z, OfStart(StartCall));
    t := Extend(z, t, OfStart(SetRunner(true)));
    t := Extend(z, t, OfStart(RunnerStart(true)));
    t := Extend(z, t, OfStart(MakeCtx));
    t := Extend(z, t, OfStart(GoStderr));
    t := Extend(z, t, OfStart(GoWaiter));
    t := Extend(z, t, OfStart(GoStdout));
  }

  /** A Start, to its end: with an acceptable line the address is recorded and the plugin lives, and
      otherwise there is none and the plugin is killed. */
  lemma {:induction false} StartEnds(z: State, ok: bool) returns (t: State)
    requires z.start.None? && !z.address && z.launches == [] && z.pipes == 0 && z.clients == 0
    ensures Reaches(z, t)
    ensures t == z.(launches := [Running(!ok, Draining)], runner := Some(0), doneCtx := Some(0), pipes := 2, clients := 4,
                    address := ok)
  {
    t := Launches(z);
    t := Extend(z, t, OfStart(AddDrain));
    t := Extend(z, t, OfStart(SelectLine(ok)));
    t := Extend(z, t, OfStart(StartReturn));
  }

  lemma {:induction false} ReadersEnd(z: State, s: State) returns (t: State)
    requires Reaches(z, s) && |s.launches| == 1 && s.launches[0] == Running(s.launches[0].killed, Draining)
    requires s.pipes == 2 && s.clients == 4
    ensures Reaches(z, t)
    ensures t == s.(launches := [s.launches[0].(stderr := Finished, stdout := Finished, drain := Drained)],
                    pipes := 0, clients := 1)
  {
    t := Extend(z, s, OfGo(StderrEnds(0)));
    t := Extend(z, t, OfGo(StderrLeaves(0)));
    t := Extend(z, t, OfGo(StdoutEnds(0)));
    t := Extend(z, t, OfGo(StdoutLeaves(0)));
    t := Extend(z, t, OfGo(DrainEnds(0)));
  }

  /** The plugin exits: its readers, its drain and its waiter come to their ends. */
  lemma {:induction false} Exits(z: State, s: State) returns (t: State)
    requires Reaches(z, s) && |s.launches| == 1 && s.launches[0] == Running(s.launches[0].killed, Draining)
    requires s.pipes == 2 && s.clients == 4
    requires s.start.None? && s.doneCtx == Some(0)
    ensures Reaches(z, t)
    ensures t == s.(launches := [Over(s.launches[0].killed)], pipes := 0, clients := 0, exited := true,
                    cancelled := s.cancelled + {0})
  {
    t := ReadersEnd(z, s);
    t := Extend(z, t, OfGo(WaiterCaptures(0)));
    t := Extend(z, t, OfGo(WaiterPassesPipes(0)));
    t := Extend(z, t, OfGo(WaiterReaps(0)));
    t := Extend(z, t, OfGo(WaiterMarks(0)));
    t := Extend(z, t, OfGo(WaiterLeaves(0)));
    t := Extend(z, t, OfGo(WaiterCancels(0)));
  }

  /** A Kill, up to the plugin it is to stop. */
  lemma {:induction false} KillBegins(z: State, s: State) returns (t: State)
    requires Reaches(z, s) && s.start.None? && s.runner == Some(0) && |s.launches| == 1 && s.launches[0].named
    requires s.gate.Fresh? && s.pendingKills == 0
    ensures Reaches(z, t) && t == s.(gate := Busy, body := Stopping(0), bodyRuns := s.bodyRuns + 1)
  {
    t := Extend(z, s, OfKill(KillCall));
    t := Extend(z, t, OfKill(OnceEnters));
    t := Extend(z, t, OfKill(BodyReads));
  }

  lemma {:induction false} KillFinishes(z: State, s: State) returns (t: State)
    requires Reaches(z, s) && s.start.None? && s.body == Stopped(0) && s.clients == 0
    ensures Reaches(z, t) && t == s.(gate := Spent, body := Ended(Some(0)), runner := None, managed := t.managed)
    ensures t.managed == if s.isManaged then Without(s.managed, s.self) else s.managed
  {
    t := Extend(z, s, OfKill(BodyJoins));
    t := Extend(z, t, OfKill(BodyClears));
    t := Extend(z, t, OfKill(BodyForgets));
  }

  lemma {:induction false} WithoutLast(others: seq<Client>, c: Client)
    requires c !in others
    ensures Without(others + [c], c) == others
  {
    if others == [] {
      assert others + [c] == [c] && [c][1..] == [];
    } else {
      assert (others + [c])[1..] == others[1..] + [c];
      WithoutLast(others[1..], c);
      assert [others[0]] + others[1..] == others;
    }
  }

  /** For every client: a run in which Start succeeds, the plugin exits gracefully or is killed by force,
      and Kill leaves no runner, no goroutine and the managed list as it was before the client. */
  lemma {:induction false} WholeLife(self: Client, isManaged: bool, others: seq<Client>, graceful: bool)
    returns (started: State, t: State)
    requires Distinct(others) && self !in others
    ensures Reaches(Init(self, isManaged, others), started) && Reaches(started, t)
    ensures started.address && started.runner == Some(0) && !started.exited && started.launches == [Running(false, Draining)]
    ensures t.exited && t.runner.None? && t.clients == 0 && t.gate.Spent? && t.managed == others
    ensures t.launches == [Over(!graceful)] && t.processKilled == !graceful
  {
    started := StartEnds(Init(self, isManaged, others), true);
    assert Runs(started, []) && After(started, []) == started;
    t := KillBegins(started, started);
    if graceful {
      t := Exits(started, t);
      t := Extend(started, t, OfKill(BodyWaits));
    } else {
      t := Extend(started, t, OfKill(BodyKills));
      t := Extend(started, t, OfKill(BodyMarks));
      t := Exits(started, t);
    }
    t := KillFinishes(started, t);
    WithoutLast(others, self);
  }

  /** And one in which Start fails: its plugin is killed and no address is left. */
  lemma {:induction false} FailedLife(self: Client, isManaged: bool, others: seq<Client>) returns (t: State)
    ensures Reaches(Init(self, isManaged, others), t) && t.start.None? && !t.address && t.launches == [Running(true, Draining)]
  {
    t := StartEnds(Init(self, isManaged, others), false);
  }

  // ---------------------------------------------------------------- nothing is ever stuck

  /** A launch without a started runner has no goroutines, a drain waits only for its Start to return, and
      there is a context to capture. */
  ghost predicate Tidy(s: State, n: nat)
  {
    n < |s.launches| ==>
      var l := s.launches[n];
      && (!l.started ==> !l.added && l.stderr.Off? && l.stdout.Off? && l.drain.NotAdded? && l.waiter.Absent?)
      && (l.drain.Added? ==> StartingOn(s, n)) && (l.added ==> s.doneCtx.Some?)
  }

  ghost predicate Live(s: State)
  {
    Safe(s) && forall n: nat :: Tidy(s, n)
  }

  lemma {:induction false} TidyStart(s: State, e: StartEvent, n: nat)
    requires Ordered(s) && Tidy(s, n) && StartEnabled(s, e)
    ensures Tidy(StartNext(s, e), n)
  {
    assert LaunchOk(s, n);
    match e
    case StartCall => case StartRefused => case SetRunner(_) => case RunnerStart(_) => case MakeCtx =>
    case SelectTimeout => case SelectExited => case SelectLine(_) => case StartReturn => case _ =>
  }

  lemma {:induction false} TidyGo(s: State, e: GoEvent, n: nat)
    requires Tidy(s, n) && GoEnabled(s, e)
    ensures Tidy(GoNext(s, e), n)
  {
    match e
    case StderrEnds(_) => case StderrLeaves(_) => case StdoutEnds(_) => case StdoutLeaves(_) => case DrainEnds(_) =>
    case WaiterCaptures(_) => case WaiterPassesPipes(_) => case WaiterReaps(_) => case WaiterMarks(_) =>
    case WaiterLeaves(_) => case WaiterCancels(_) =>
  }

  lemma {:induction false} LiveStep(s: State, e: Event)
    requires Live(s) && Enabled(s, e)
    ensures Live(Next(s, e))
  {
    SafeStep(s, e);
    forall n: nat ensures Tidy(Next(s, e), n) {
      assert Tidy(s, n);
      match e
      case OfStart(e) => TidyStart(s, e, n);
      case OfGo(g) => TidyGo(s, g, n);
      case OfKill(k) => KillLeavesLaunches(s, k);
    }
  }

  lemma {:induction false} LiveRun(s: State, es: seq<Event>)
    requires Live(s) && Runs(s, es)
    ensures Live(After(s, es))
    decreases es
  {
    if es != [] {
      LiveStep(s, es[0]);
      LiveRun(Next(s, es[0]), es[1..]);
    }
  }

  function StartWork(start: Option<StartAt>): nat
  {
    if start.None? then 0
    else
      match start.value
      case Checking => 1
      case Launching(_, stage) =>
        match stage
        case HasRunner => 1 case RunnerStarted => 8 case HasCtx => 7 case StderrGoing => 6 case WaiterGoing => 5
        case StdoutGoing => 4 case Selecting => 3 case Returning(_) => 2
  }

  /** A Start that gives up as soon as it can. */
  lemma {:induction false} StartGoesOn(s: State) returns (e: StartEvent)
    requires s.start.Some? && (s.start.value.Launching? ==> s.start.value.n < |s.launches|)
    ensures StartEnabled(s, e) && StartWork(StartNext(s, e).start) < StartWork(s.start)
  {
    match s.start.value {
      case Checking => e := StartRefused;
      case Launching(_, stage) =>
        match stage {
          case HasRunner => e := RunnerStart(false);
          case RunnerStarted => e := MakeCtx;
          case HasCtx => e := GoStderr;
          case StderrGoing => e := GoWaiter;
          case WaiterGoing => e := GoStdout;
          case StdoutGoing => e := AddDrain;
          case Selecting => e := SelectTimeout;
          case Returning(_) => e := StartReturn;
        }
    }
  }

  lemma {:induction false} EndStart(z: State, s: State) returns (t: State)
    requires Live(s) && Reaches(z, s)
    ensures Live(t) && Reaches(z, t) && t.start.None?
    decreases StartWork(s.start)
  {
    t := s;
    if s.start.Some? {
      var e := StartGoesOn(s);
      t := Extend(z, s, OfStart(e));
      LiveStep(s, OfStart(e));
      t := EndStart(z, t);
    }
  }

  function ReaderWork(r: Reader): nat
  {
    match r case Reading => 2 case PipeDone => 1 case _ => 0
  }

  function WaiterWork(w: Waiter): nat
  {
    match w
    case Absent => 0 case Created => 6 case Captured(_) => 5 case PipesPassed(_) => 4 case Waited(_) => 3 case Marked(_) => 2
    case Released(_) => 1 case Cancelled(_) => 0
  }

  function LaunchWork(l: Launch): nat
  {
    ReaderWork(l.stderr) + ReaderWork(l.stdout) + Bit(l.drain.Draining?) + WaiterWork(l.waiter)
  }

  function GoWork(ls: seq<Launch>): nat
  {
    if ls == [] then 0 else GoWork(ls[..|ls| - 1]) + LaunchWork(ls[|ls| - 1])
  }

  lemma {:induction false} GoWorkUpdate(ls: seq<Launch>, n: nat, l: Launch)
    requires n < |ls|
    ensures GoWork(ls[n := l]) == GoWork(ls) - LaunchWork(ls[n]) + LaunchWork(l)
  {
    var last := |ls| - 1;
    if n < last {
      GoWorkUpdate(ls[..last], n, l);
      assert ls[n := l][..last] == ls[..last][n := l];
    } else {
      assert ls[n := l][..last] == ls[..last];
    }
  }

  lemma {:induction false} SomeWork(ls: seq<Launch>) returns (n: nat)
    requires GoWork(ls) > 0
    ensures n < |ls| && LaunchWork(ls[n]) > 0
  {
    n := |ls| - 1;
    if LaunchWork(ls[n]) == 0 {
      n := SomeWork(ls[..n]);
    }
  }

  lemma {:induction false} NoWork(ls: seq<Launch>, n: nat)
    requires GoWork(ls) == 0 && n < |ls|
    ensures LaunchWork(ls[n]) == 0
  {
    if n < |ls| - 1 {
      NoWork(ls[..|ls| - 1], n);
    }
  }

  predicate ReadersDone(s: State)
  {
    forall n :: 0 <= n < |s.launches| ==> ReaderWork(s.launches[n].stderr) + ReaderWork(s.launches[n].stdout) == 0
  }

  lemma {:induction false} GoSets(s: State, g: GoEvent)
    requires GoEnabled(s, g)
    ensures |GoNext(s, g).launches| == |s.launches|
    ensures GoNext(s, g).launches == s.launches[g.n := GoNext(s, g).launches[g.n]]
    ensures LaunchWork(GoNext(s, g).launches[g.n]) < LaunchWork(s.launches[g.n])
  {
    match g
    case StderrEnds(_) => case StderrLeaves(_) => case StdoutEnds(_) => case StdoutLeaves(_) => case DrainEnds(_) =>
    case WaiterCaptures(_) => case WaiterPassesPipes(_) => case WaiterReaps(_) => case WaiterMarks(_) =>
    case WaiterLeaves(_) => case WaiterCancels(_) =>
  }

  /** Every step of a goroutine leaves less to do. */
  lemma {:induction false} LessWork(s: State, g: GoEvent)
    requires GoEnabled(s, g)
    ensures GoWork(GoNext(s, g).launches) < GoWork(s.launches)
  {
    GoSets(s, g);
    GoWorkUpdate(s.launches, g.n, GoNext(s, g).launches[g.n]);
  }

  /** Every pipe reader can end by itself. */
  lemma {:induction false} ReaderGoesOn(s: State, n: nat) returns (g: GoEvent)
    requires n < |s.launches| && ReaderWork(s.launches[n].stderr) + ReaderWork(s.launches[n].stdout) > 0
    ensures GoEnabled(s, g)
  {
    var l := s.launches[n];
    if l.stderr.Reading? {
      g := StderrEnds(n);
    } else if l.stderr.PipeDone? {
      g := StderrLeaves(n);
    } else if l.stdout.Reading? {
      g := StdoutEnds(n);
    } else {
      g := StdoutLeaves(n);
    }
  }

  lemma {:induction false} PipesAreFree(s: State)
    requires Live(s) && s.start.None? && ReadersDone(s)
    ensures s.pipes == 0
  {
    forall n | 0 <= n < |s.launches| ensures !StderrDue()(s.launches[n]) && !StdoutDue()(s.launches[n]) {
      assert LaunchOk(s, n) && Tidy(s, n);
    }
    assert CountIf(s.launches, StderrDue()) == 0 && CountIf(s.launches, StdoutDue()) == 0;
  }

  lemma {:induction false} WaiterGoesOn(s: State, n: nat) returns (g: GoEvent)
    requires s.start.None? && s.pipes == 0 && n < |s.launches| && WaiterWork(s.launches[n].waiter) > 0
    requires s.launches[n].waiter.Created? ==> s.doneCtx.Some?
    ensures GoEnabled(s, g)
  {
    match s.launches[n].waiter {
      case Created => g := WaiterCaptures(n);
      case Captured(_) => g := WaiterPassesPipes(n);
      case PipesPassed(_) => g := WaiterReaps(n);
      case Waited(_) => g := WaiterMarks(n);
      case Marked(_) => g := WaiterLeaves(n);
      case Released(_) => g := WaiterCancels(n);
    }
  }

  /** Once the readers are done, a drain can end and a waiter can go on. */
  lemma {:induction false} OthersGoOn(s: State, n: nat) returns (g: GoEvent)
    requires Live(s) && s.start.None? && ReadersDone(s) && n < |s.launches| && LaunchWork(s.launches[n]) > 0
    ensures GoEnabled(s, g)
  {
    PipesAreFree(s);
    assert LaunchOk(s, n) && Tidy(s, n);
    if s.launches[n].drain.Draining? {
      g := DrainEnds(n);
    } else {
      g := WaiterGoesOn(s, n);
    }
  }

  lemma {:induction false} EndGoroutines(z: State, s: State) returns (t: State)
    requires Live(s) && Reaches(z, s) && s.start.None?
    ensures Live(t) && Reaches(z, t) && t.start.None? && GoWork(t.launches) == 0
    decreases GoWork(s.launches)
  {
    t := s;
    if GoWork(s.launches) > 0 {
      var g;
      if n :| 0 <= n < |s.launches| && ReaderWork(s.launches[n].stderr) + ReaderWork(s.launches[n].stdout) > 0 {
        g := ReaderGoesOn(s, n);
      } else {
        var n := SomeWork(s.launches);
        g := OthersGoOn(s, n);
      }
      t := Extend(z, s, OfGo(g));
      LiveStep(s, OfGo(g));
      GoLeavesKill(s, g);
      LessWork(s, g);
      t := EndGoroutines(z, t);
    }
  }

  lemma {:induction false} NobodyLeft(s: State)
    requires Live(s) && s.start.None? && GoWork(s.launches) == 0
    ensures s.clients == 0
  {
    forall n | 0 <= n < |s.launches|
      ensures !StderrBusy()(s.launches[n]) && !StdoutBusy()(s.launches[n])
      ensures !DrainBusy()(s.launches[n]) && !WaiterBusy()(s.launches[n])
    {
      NoWork(s.launches, n);
      assert Tidy(s, n);
    }
    assert CountIf(s.launches, StderrBusy()) == 0 && CountIf(s.launches, StdoutBusy()) == 0;
    assert CountIf(s.launches, DrainBusy()) == 0 && CountIf(s.launches, WaiterBusy()) == 0;
  }

  function BodyWork(b: Body): nat
  {
    match b
    case NotRun => 8 case Entered => 7 case Stopping(_) => 6 case Forced(_) => 5 case Stopped(_) => 4 case Joined(_) => 3
    case Cleared(_) => 2 case Ended(_) => 0
  }

  lemma {:induction false} BodyGoesOn(s: State) returns (e: KillEvent)
    requires BodyOk(s) && GateOk(s) && s.start.None? && s.clients == 0 && s.gate.Busy?
    ensures KillEnabled(s, e) && BodyWork(KillNext(s, e).body) < BodyWork(s.body)
  {
    match s.body {
      case Entered => e := BodyReads;
      case Stopping(_) => e := BodyKills;
      case Forced(_) => e := BodyMarks;
      case Stopped(_) => e := BodyJoins;
      case Joined(_) => e := BodyClears;
      case Cleared(_) => e := BodyForgets;
    }
  }

  lemma {:induction false} KillGoesOn(s: State) returns (e: KillEvent)
    requires BodyOk(s) && GateOk(s) && s.start.None? && s.clients == 0 && (s.gate.Busy? || s.pendingKills > 0)
    ensures KillEnabled(s, e)
    ensures var s' := KillNext(s, e);
            BodyWork(s'.body) < BodyWork(s.body) || (s'.body == s.body && s'.pendingKills < s.pendingKills)
  {
    if s.gate.Busy? {
      e := BodyGoesOn(s);
    } else {
      e := if s.gate.Fresh? then OnceEnters else OnceReturns;
    }
  }

  lemma {:induction false} KillKeepsClients(s: State, e: KillEvent)
    requires KillEnabled(s, e)
    ensures KillNext(s, e).clients == s.clients && KillNext(s, e).start == s.start
  {
    match e
    case KillCall => case OnceEnters => case OnceReturns => case BodyReads => case BodyWaits => case BodyKills =>
    case BodyMarks => case BodyJoins => case BodyClears => case BodyForgets => case OtherJoins(_) => case OtherLeaves(_) =>
  }

  lemma {:induction false} EndKills(z: State, s: State) returns (t: State)
    requires Live(s) && Reaches(z, s) && s.start.None? && s.clients == 0
    ensures Reaches(z, t) && t.start.None? && t.clients == 0 && t.pendingKills == 0 && !t.gate.Busy?
    decreases BodyWork(s.body), s.pendingKills
  {
    t := s;
    if s.gate.Busy? || s.pendingKills > 0 {
      var k := KillGoesOn(s);
      KillKeepsClients(s, k);
      t := Extend(z, s, OfKill(k));
      LiveStep(s, OfKill(k));
      t := EndKills(z, t);
    }
  }

  /** In every run, with any number of Start and Kill callers: Start can still return, every goroutine it
      started can leave, and every Kill can come to its end. */
  lemma {:induction false} NothingIsStuck(self: Client, isManaged: bool, others: seq<Client>, es: seq<Event>) returns (t: State)
    requires Distinct(others) && self !in others && Runs(Init(self, isManaged, others), es)
    ensures Reaches(After(Init(self, isManaged, others), es), t)
    ensures t.start.None? && t.clients == 0 && t.pendingKills == 0 && !t.gate.Busy?
  {
    var s := After(Init(self, isManaged, others), es);
    SafeInit(self, isManaged, others);
    LiveRun(Init(self, isManaged, others), es);
    assert Runs(s, []) && After(s, []) == s;
    t := EndStart(s, s);
    t := EndGoroutines(s, t);
    NobodyLeft(t);
    t := EndKills(s, t);
  }
}
