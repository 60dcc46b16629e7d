/** What every interleaving of Start, Kill and the goroutines they start keeps. */
module LifecycleSafety {
  import opened Basics
  import opened Lifecycle

  // ---------------------------------------------------------------- the wait groups count what they should

  predicate Due(l: Launch, r: Reader)
  {
    l.added && (r.Off? || r.Reading?)
  }

  function StderrDue(): Launch -> bool
  {
    (l: Launch) => Due(l, l.stderr)
  }

  function StdoutDue(): Launch -> bool
  {
    (l: Launch) => Due(l, l.stdout)
  }

  predicate Busy(r: Reader)
  {
    r.Reading? || r.PipeDone?
  }

  function StderrBusy(): Launch -> bool
  {
    (l: Launch) => Busy(l.stderr)
  }

  function StdoutBusy(): Launch -> bool
  {
    (l: Launch) => Busy(l.stdout)
  }

  function DrainBusy(): Launch -> bool
  {
    (l: Launch) => l.drain.Added? || l.drain.Draining?
  }

  function WaiterBusy(): Launch -> bool
  {
    (l: Launch) => !l.waiter.Absent? && !l.waiter.Released? && !l.waiter.Cancelled?
  }

  /** pipesWaitGroup is the number of readers not yet done with a pipe, over all launches, and
      clientWaitGroup the number of goroutines not yet gone. */
  ghost predicate Counted(s: State)
  {
    && s.pipes == CountIf(s.launches, StderrDue()) + CountIf(s.launches, StdoutDue())
    && s.clients == CountIf(s.launches, StderrBusy()) + CountIf(s.launches, StdoutBusy()) +
                    CountIf(s.launches, DrainBusy()) + CountIf(s.launches, WaiterBusy())
  }

  // ---------------------------------------------------------------- each launch

  /** The Start that holds the lock is working on launch `n`. */
  predicate StartingOn(s: State, n: nat)
  {
    s.start.Some? && s.start.value.Launching? && s.start.value.n == n
  }

  predicate ReaderDone(r: Reader)
  {
    r.PipeDone? || r.Finished?
  }

  predicate PastPipes(w: Waiter)
  {
    w.PipesPassed? || w.Waited? || w.Marked? || w.Released? || w.Cancelled?
  }

  predicate PastMark(w: Waiter)
  {
    w.Marked? || w.Released? || w.Cancelled?
  }

  predicate HasCaptured(w: Waiter)
  {
    w.Captured? || PastPipes(w)
  }

  /** What the launch looks like while its Start is still running. */
  ghost predicate Staged(s: State, n: nat)
    requires n < |s.launches|
  {
    var l := s.launches[n];
    if !StartingOn(s, n) then
      // its Start is over: a launched plugin has all its goroutines
      l.started ==> l.added && !l.stderr.Off? && !l.stdout.Off? && !l.waiter.Absent? && !l.drain.NotAdded?
    else
      match s.start.value.stage
      case HasRunner => !l.started && !l.added && l.stderr.Off? && l.stdout.Off? && l.waiter.Absent? && l.drain.NotAdded?
      case RunnerStarted => l.started && !l.added && l.stderr.Off? && l.stdout.Off? && l.waiter.Absent? && l.drain.NotAdded?
      case HasCtx => l.started && l.added && l.stderr.Off? && l.stdout.Off? && l.waiter.Absent? && l.drain.NotAdded?
      case StderrGoing => l.started && l.added && !l.stderr.Off? && l.stdout.Off? && l.waiter.Absent? && l.drain.NotAdded?
      case WaiterGoing => l.started && l.added && !l.stderr.Off? && l.stdout.Off? && !l.waiter.Absent? && l.drain.NotAdded?
      case StdoutGoing => l.started && l.added && !l.stderr.Off? && !l.stdout.Off? && !l.waiter.Absent? && l.drain.NotAdded?
      case _ => l.started && l.added && !l.stderr.Off? && !l.stdout.Off? && !l.waiter.Absent? && l.drain.Added?
  }

  /** The waiter calls runner.Wait only after both readers are done, sets exited before it cancels, and
      once it is past the lock the Start that made its context has let go of it. */
  ghost predicate WaiterOk(s: State, l: Launch)
  {
    && (!l.added ==> l.stderr.Off? && l.stdout.Off? && l.waiter.Absent?)
    && (PastPipes(l.waiter) ==> ReaderDone(l.stderr) && ReaderDone(l.stdout))
    && (HasCaptured(l.waiter) ==> l.waiter.ctx < |s.launches| && s.launches[l.waiter.ctx].added)
    && (PastMark(l.waiter) ==> s.exited && !StartingOn(s, l.waiter.ctx))
  }

  ghost predicate LaunchOk(s: State, n: nat)
  {
    n < |s.launches| ==> Staged(s, n) && WaiterOk(s, s.launches[n])
  }

  ghost predicate ContextOk(s: State)
  {
    && (s.start.Some? && s.start.value.Launching? ==> s.start.value.n == |s.launches| - 1)
    && (s.doneCtx.Some? ==> s.doneCtx.value < |s.launches| && s.launches[s.doneCtx.value].added)
    && (s.start.Some? && s.start.value.Launching? && !s.start.value.stage.HasRunner? && !s.start.value.stage.RunnerStarted? ==>
          s.doneCtx == Some(s.start.value.n))
    && (forall k :: k in s.cancelled ==> s.exited && k < |s.launches| && !StartingOn(s, k))
  }

  ghost predicate Ordered(s: State)
  {
    Counted(s) && ContextOk(s) && forall n: nat :: LaunchOk(s, n)
  }

  lemma {:induction false} CountedSetRunner(s: State, named: bool)
    requires Counted(s) && StartEnabled(s, SetRunner(named))
    ensures Counted(StartNext(s, SetRunner(named)))
  {
    var l := Launch(named, false, false, false, Off, Off, NotAdded, Absent);
    CountAppend(s.launches, l, StderrDue());
    CountAppend(s.launches, l, StdoutDue());
    CountAppend(s.launches, l, StderrBusy());
    CountAppend(s.launches, l, StdoutBusy());
    CountAppend(s.launches, l, DrainBusy());
    CountAppend(s.launches, l, WaiterBusy());
  }

  /** What one launch contributes to pipesWaitGroup, and to clientWaitGroup. */
  function PipesOf(l: Launch): int
  {
    Bit(Due(l, l.stderr)) + Bit(Due(l, l.stdout))
  }

  function ClientsOf(l: Launch): int
  {
    Bit(Busy(l.stderr)) + Bit(Busy(l.stdout)) + Bit(l.drain.Added? || l.drain.Draining?) +
    Bit(!l.waiter.Absent? && !l.waiter.Released? && !l.waiter.Cancelled?)
  }

  /** Replacing one launch moves the two counters by what that launch contributes. */
  lemma {:induction false} CountedSet(s: State, n: nat, l: Launch, pipes: int, clients: int)
    requires Counted(s) && n < |s.launches|
    requires pipes - s.pipes == PipesOf(l) - PipesOf(s.launches[n])
    requires clients - s.clients == ClientsOf(l) - ClientsOf(s.launches[n])
    ensures Counted(SetLaunch(s, n, l).(pipes := pipes, clients := clients))
  {
    CountUpdate(s.launches, n, l, StderrDue());
    CountUpdate(s.launches, n, l, StdoutDue());
    CountUpdate(s.launches, n, l, StderrBusy());
    CountUpdate(s.launches, n, l, StdoutBusy());
    CountUpdate(s.launches, n, l, DrainBusy());
    CountUpdate(s.launches, n, l, WaiterBusy());
  }

  predicate Launches(e: StartEvent)
  {
    e.RunnerStart? || e.MakeCtx? || e.StartReturn?
  }

  lemma {:induction false} CountedLaunch(s: State, e: StartEvent)
    requires Counted(s) && StartEnabled(s, e) && Launches(e) && Staged(s, s.start.value.n)
    ensures Counted(StartNext(s, e))
  {
    var n, l := s.start.value.n, s.launches[s.start.value.n];
    match e
    case RunnerStart(_) => CountedSet(s, n, l.(started := true), s.pipes, s.clients);
    case MakeCtx => CountedSet(s, n, l.(added := true), s.pipes + 2, s.clients);
    case StartReturn =>
      CountedSet(s, n, l.(drain := Draining, killed := l.killed || !s.start.value.stage.ok), s.pipes, s.clients);
  }

  lemma {:induction false} CountedGoes(s: State, e: StartEvent)
    requires Counted(s) && StartEnabled(s, e) && Goes(e) && Staged(s, s.start.value.n)
    ensures Counted(StartNext(s, e))
  {
    var n, l := s.start.value.n, s.launches[s.start.value.n];
    match e
    case GoStderr => CountedSet(s, n, l.(stderr := Reading), s.pipes, s.clients + 1);
    case GoWaiter => CountedSet(s, n, l.(waiter := Created), s.pipes, s.clients + 1);
    case GoStdout => CountedSet(s, n, l.(stdout := Reading), s.pipes, s.clients + 1);
    case AddDrain => CountedSet(s, n, l.(drain := Added), s.pipes, s.clients + 1);
  }

  lemma {:induction false} CountedStart(s: State, e: StartEvent)
    requires Counted(s) && StartEnabled(s, e)
    requires s.start.Some? && s.start.value.Launching? ==> Staged(s, s.start.value.n)
    ensures Counted(StartNext(s, e))
  {
    if e.SetRunner? {
      CountedSetRunner(s, e.named);
    } else if Launches(e) {
      CountedLaunch(s, e);
    } else if Goes(e) {
      CountedGoes(s, e);
    }
  }

  predicate OfReader(e: GoEvent)
  {
    e.StderrEnds? || e.StderrLeaves? || e.StdoutEnds? || e.StdoutLeaves? || e.DrainEnds?
  }

  lemma {:induction false} CountedReader(s: State, e: GoEvent)
    requires Counted(s) && GoEnabled(s, e) && OfReader(e) && WaiterOk(s, s.launches[e.n])
    ensures Counted(GoNext(s, e))
  {
    var s' := GoNext(s, e);
    CountedSet(s, e.n, s'.launches[e.n], s'.pipes, s'.clients);
  }

  lemma {:induction false} CountedWaiter(s: State, e: GoEvent)
    requires Counted(s) && GoEnabled(s, e) && !OfReader(e)
    ensures Counted(GoNext(s, e))
  {
    var s' := GoNext(s, e);
    CountedSet(s, e.n, s'.launches[e.n], s'.pipes, s'.clients);
  }

  lemma {:induction false} CountedGo(s: State, e: GoEvent)
    requires Counted(s) && GoEnabled(s, e) && WaiterOk(s, s.launches[e.n])
    ensures Counted(GoNext(s, e))
  {
    if OfReader(e) {
      CountedReader(s, e);
    } else {
      CountedWaiter(s, e);
    }
  }

  /** When pipesWaitGroup is zero, no launch has a reader that is not done. */
  lemma {:induction false} PipesClear(s: State, n: nat)
    requires Counted(s) && s.pipes == 0 && n < |s.launches|
    ensures !Due(s.launches[n], s.launches[n].stderr) && !Due(s.launches[n], s.launches[n].stdout)
  {
    CountNone(s.launches, StderrDue());
    CountNone(s.launches, StdoutDue());
    assert !StderrDue()(s.launches[n]) && !StdoutDue()(s.launches[n]);
  }

  lemma {:induction false} LaunchStartOther(s: State, e: StartEvent, n: nat)
    requires ContextOk(s) && LaunchOk(s, n) && StartEnabled(s, e) && !StartingOn(s, n)
    ensures LaunchOk(StartNext(s, e), n)
  {
  }

  lemma {:induction false} LaunchStart(s: State, e: StartEvent, n: nat)
    requires ContextOk(s) && LaunchOk(s, n) && StartEnabled(s, e)
    ensures LaunchOk(StartNext(s, e), n)
  {
    if !StartingOn(s, n) {
      LaunchStartOther(s, e, n);
    } else {
      match e
      case RunnerStart(_) => case MakeCtx => case GoStderr => case GoWaiter => case GoStdout => case AddDrain =>
      case StartReturn => case _ =>
    }
  }

  lemma {:induction false} LaunchGoOther(s: State, e: GoEvent, n: nat)
    requires LaunchOk(s, n) && GoEnabled(s, e) && e.n != n
    ensures LaunchOk(GoNext(s, e), n)
  {
  }

  lemma {:induction false} LaunchReads(s: State, e: GoEvent)
    requires LaunchOk(s, e.n) && GoEnabled(s, e)
    requires OfReader(e)
    ensures LaunchOk(GoNext(s, e), e.n)
  {
  }

  lemma {:induction false} LaunchWaits(s: State, e: GoEvent)
    requires Counted(s) && ContextOk(s) && LaunchOk(s, e.n) && GoEnabled(s, e)
    requires !OfReader(e)
    ensures LaunchOk(GoNext(s, e), e.n)
  {
    if e.WaiterPassesPipes? {
      PipesClear(s, e.n);
    }
  }

  lemma {:induction false} LaunchGo(s: State, e: GoEvent, n: nat)
    requires Counted(s) && ContextOk(s) && LaunchOk(s, n) && GoEnabled(s, e)
    ensures LaunchOk(GoNext(s, e), n)
  {
    if e.n != n {
      LaunchGoOther(s, e, n);
    } else if OfReader(e) {
      LaunchReads(s, e);
    } else {
      LaunchWaits(s, e);
    }
  }

  lemma {:induction false} LaunchKill(s: State, e: KillEvent, n: nat)
    requires LaunchOk(s, n) && KillEnabled(s, e)
    ensures LaunchOk(KillNext(s, e), n)
  {
  }

  lemma {:induction false} CountedBodyKills(s: State)
    requires Counted(s) && KillEnabled(s, BodyKills)
    ensures Counted(KillNext(s, BodyKills))
  {
    CountedSet(s, s.body.n, s.launches[s.body.n].(killed := true), s.pipes, s.clients);
  }

  lemma {:induction false} CountedKill(s: State, e: KillEvent)
    requires Counted(s) && KillEnabled(s, e)
    ensures Counted(KillNext(s, e))
  {
    match e
    case BodyKills => CountedBodyKills(s);
    case KillCall => case OnceEnters => case OnceReturns => case BodyReads => case BodyWaits => case BodyMarks =>
    case BodyJoins => case BodyClears => case BodyForgets => case OtherJoins(_) => case OtherLeaves(_) =>
  }

  lemma {:induction false} ContextStart(s: State, e: StartEvent)
    requires ContextOk(s) && StartEnabled(s, e)
    ensures ContextOk(StartNext(s, e))
  {
  }

  lemma {:induction false} ContextGo(s: State, e: GoEvent)
    requires ContextOk(s) && GoEnabled(s, e) && WaiterOk(s, s.launches[e.n])
    ensures ContextOk(GoNext(s, e))
  {
  }

  lemma {:induction false} ContextKill(s: State, e: KillEvent)
    requires ContextOk(s) && KillEnabled(s, e)
    ensures ContextOk(KillNext(s, e))
  {
    KillLeavesLaunches(s, e);
  }

  /** Kill changes nothing of a launch but whether it was killed. */
  lemma {:induction false} KillLeavesLaunches(s: State, e: KillEvent)
    requires KillEnabled(s, e)
    ensures var s' := KillNext(s, e);
            s'.start == s.start && s'.doneCtx == s.doneCtx && s'.cancelled == s.cancelled && s'.exited == s.exited
    ensures |KillNext(s, e).launches| == |s.launches|
    ensures forall n :: 0 <= n < |s.launches| ==>
              KillNext(s, e).launches[n] == s.launches[n] || KillNext(s, e).launches[n] == s.launches[n].(killed := true)
  {
    match e
    case KillCall => case OnceEnters => case OnceReturns => case BodyReads => case BodyWaits => case BodyKills =>
    case BodyMarks => case BodyJoins => case BodyClears => case BodyForgets => case OtherJoins(_) => case OtherLeaves(_) =>
  }

  /** A waiter that captured context `k` has cancelled it. */
  ghost predicate Canceller(s: State, k: nat)
  {
    exists n :: 0 <= n < |s.launches| && s.launches[n].waiter == Cancelled(k)
  }

  lemma {:induction false} CancelledStart(s: State, e: StartEvent, n: nat, k: nat)
    requires StartEnabled(s, e) && n < |s.launches| && s.launches[n].waiter == Cancelled(k)
    requires e == GoWaiter ==> s.start.value.n != n
    ensures n < |StartNext(s, e).launches| && StartNext(s, e).launches[n].waiter == Cancelled(k)
  {
    match e
    case StartCall => case StartRefused => case SetRunner(_) => case RunnerStart(_) => case MakeCtx =>
    case SelectTimeout => case SelectExited => case SelectLine(_) => case StartReturn => case _ =>
  }

  lemma {:induction false} CancelledGo(s: State, e: GoEvent, n: nat, k: nat)
    requires GoEnabled(s, e) && n < |s.launches| && s.launches[n].waiter == Cancelled(k)
    ensures n < |GoNext(s, e).launches| && GoNext(s, e).launches[n].waiter == Cancelled(k)
  {
    match e
    case StderrEnds(_) => case StderrLeaves(_) => case StdoutEnds(_) => case StdoutLeaves(_) => case DrainEnds(_) =>
    case WaiterCaptures(_) => case WaiterPassesPipes(_) => case WaiterReaps(_) => case WaiterMarks(_) =>
    case WaiterLeaves(_) => case WaiterCancels(_) =>
  }

  /** A waiter that has cancelled is done. */
  lemma {:induction false} CancelledStays(s: State, e: Event, n: nat, k: nat)
    requires Enabled(s, e) && n < |s.launches| && s.launches[n].waiter == Cancelled(k)
    requires e.OfStart? && e.e == GoWaiter ==> s.start.value.n != n
    ensures n < |Next(s, e).launches| && Next(s, e).launches[n].waiter == Cancelled(k)
  {
    match e
    case OfStart(e) => CancelledStart(s, e, n, k);
    case OfGo(g) => CancelledGo(s, g, n, k);
    case OfKill(kill) => KillLeavesLaunches(s, kill);
  }

  lemma {:induction false} CancellerStep(s: State, e: Event, k: nat)
    requires Ordered(s) && Enabled(s, e) && (k in s.cancelled ==> Canceller(s, k))
    ensures k in Next(s, e).cancelled ==> Canceller(Next(s, e), k)
  {
    if e.OfGo? && e.g.WaiterCancels? && s.launches[e.g.n].waiter.ctx == k {
      assert Next(s, e).launches[e.g.n].waiter == Cancelled(k);
    } else if k in s.cancelled {
      var n :| 0 <= n < |s.launches| && s.launches[n].waiter == Cancelled(k);
      assert LaunchOk(s, n);
      CancelledStays(s, e, n, k);
    }
    CancelledOnlyByWaiters(s, e);
  }

  lemma {:induction false} StartCancelsNothing(s: State, e: StartEvent)
    requires StartEnabled(s, e)
    ensures StartNext(s, e).cancelled == s.cancelled
  {
    match e
    case StartCall => case StartRefused => case SetRunner(_) => case RunnerStart(_) => case MakeCtx =>
    case SelectTimeout => case SelectExited => case SelectLine(_) => case StartReturn => case _ =>
  }

  lemma {:induction false} CancelledOnlyByWaiters(s: State, e: Event)
    requires Enabled(s, e)
    ensures Next(s, e).cancelled == s.cancelled + if e.OfGo? && e.g.WaiterCancels? then {s.launches[e.g.n].waiter.ctx} else {}
  {
    match e
    case OfStart(e) => StartCancelsNothing(s, e);
    case OfGo(_) =>
    case OfKill(k) => KillLeavesLaunches(s, k);
  }

  lemma {:induction false} OrderedStep(s: State, e: Event)
    requires Ordered(s) && Enabled(s, e)
    ensures Ordered(Next(s, e))
  {
    match e {
      case OfStart(e) =>
        if s.start.Some? && s.start.value.Launching? { assert LaunchOk(s, s.start.value.n); }
        CountedStart(s, e);
        ContextStart(s, e);
        forall n: nat ensures LaunchOk(StartNext(s, e), n) { LaunchStart(s, e, n); }
      case OfGo(g) =>
        assert LaunchOk(s, g.n);
        CountedGo(s, g);
        ContextGo(s, g);
        forall n: nat ensures LaunchOk(GoNext(s, g), n) { LaunchGo(s, g, n); }
      case OfKill(k) =>
        CountedKill(s, k);
        ContextKill(s, k);
        forall n: nat ensures LaunchOk(KillNext(s, k), n) { LaunchKill(s, k, n); }
    }
  }

  // ---------------------------------------------------------------- Kill

  ghost predicate Distinct(cs: seq<Client>)
  {
    forall i, j :: 0 <= i < j < |cs| ==> cs[i] != cs[j]
  }

  /** Removing a client takes out exactly that client and keeps everybody else in order. */
  lemma {:induction false} WithoutSplits(cs: seq<Client>, c: Client) returns (i: nat)
    ensures c !in cs ==> Without(cs, c) == cs
    ensures c in cs ==> i < |cs| && cs[i] == c && c !in cs[..i] && Without(cs, c) == cs[..i] + cs[i + 1..]
  {
    i := 0;
    if cs != [] && cs[0] != c {
      assert cs == [cs[0]] + cs[1..];
      var j := WithoutSplits(cs[1..], c);
      if c in cs[1..] {
        i := j + 1;
        assert cs[..i] == [cs[0]] + cs[1..][..j];
        assert cs[i + 1..] == cs[1..][j + 1..];
        assert [cs[0]] + (cs[1..][..j] + cs[1..][j + 1..]) == cs[..i] + cs[i + 1..];
      }
    }
  }

  lemma DistinctTail(cs: seq<Client>)
    requires cs != [] && Distinct(cs)
    ensures Distinct(cs[1..]) && cs[0] !in cs[1..]
  {
  }

  lemma {:induction false} WithoutDistinct(cs: seq<Client>, c: Client)
    requires Distinct(cs)
    ensures Distinct(Without(cs, c)) && c !in Without(cs, c)
    ensures forall x :: x != c ==> (x in Without(cs, c) <==> x in cs)
  {
    if cs != [] {
      assert cs == [cs[0]] + cs[1..];
      DistinctTail(cs);
      WithoutDistinct(cs[1..], c);
    }
  }

  /** The launch the body of kill is working on, if it has one. */
  function Victim(b: Body): Option<nat>
  {
    match b
    case Stopping(n) => Some(n)
    case Forced(n) => Some(n)
    case Stopped(n) => Some(n)
    case Joined(n) => Some(n)
    case Cleared(n) => Some(n)
    case Ended(n) => n
    case _ => None
  }

  predicate HasJoined(b: Body)
  {
    b.Joined? || b.Cleared? || (b.Ended? && b.cleaned.Some?)
  }

  predicate HasCleared(b: Body)
  {
    b.Cleared? || (b.Ended? && b.cleaned.Some?)
  }

  ghost predicate GateOk(s: State)
  {
    && (s.gate.Fresh? <==> s.body.NotRun?)
    && (s.gate.Spent? <==> s.body.Ended?)
    && s.bodyRuns == Bit(!s.gate.Fresh?)
  }

  /** The launch being cleaned up is complete; after the join, if it was started, its waiter has set
      exited; after the clear, any runner is a later one. */
  ghost predicate VictimOk(s: State, b: Body, n: nat)
  {
    && n < |s.launches| && s.launches[n].named && !StartingOn(s, n)
    && (HasJoined(b) && s.launches[n].started ==> PastMark(s.launches[n].waiter))
    && (HasCleared(b) && s.runner.Some? ==> n < s.runner.value)
  }

  ghost predicate BodyOk(s: State)
  {
    && (s.runner.Some? ==> s.runner.value < |s.launches|)
    && (Victim(s.body).Some? ==> VictimOk(s, s.body, Victim(s.body).value))
  }

  ghost predicate ListOk(s: State)
  {
    Distinct(s.managed) && (s.self in s.managed <==> s.isManaged && !(s.body.Ended? && s.body.cleaned.Some?))
  }

  ghost predicate Safe(s: State)
  {
    Ordered(s) && GateOk(s) && BodyOk(s) && ListOk(s) && forall k: nat :: k in s.cancelled ==> Canceller(s, k)
  }

  /** Start and the goroutines it launches leave the gate, the body of kill and the list alone. */
  ghost predicate SameKill(s: State, s': State)
  {
    && s'.gate == s.gate && s'.body == s.body && s'.bodyRuns == s.bodyRuns
    && s'.managed == s.managed && s'.self == s.self && s'.isManaged == s.isManaged
  }

  lemma {:induction false} StartLeavesKill(s: State, e: StartEvent)
    requires StartEnabled(s, e)
    ensures SameKill(s, StartNext(s, e))
  {
  }

  lemma {:induction false} GoLeavesKill(s: State, e: GoEvent)
    requires GoEnabled(s, e)
    ensures SameKill(s, GoNext(s, e)) && GoNext(s, e).runner == s.runner && GoNext(s, e).start == s.start
  {
  }

  lemma {:induction false} GateKill(s: State, e: KillEvent)
    requires GateOk(s) && KillEnabled(s, e)
    ensures GateOk(KillNext(s, e))
  {
  }

  lemma {:induction false} ListKill(s: State, e: KillEvent)
    requires ListOk(s) && GateOk(s) && KillEnabled(s, e)
    ensures ListOk(KillNext(s, e))
  {
    if e.BodyForgets? {
      WithoutDistinct(s.managed, s.self);
    } else if e.OtherLeaves? {
      WithoutDistinct(s.managed, e.c);
    }
  }

  /** clientWaitGroup can reach zero only when every waiter has set exited and left. */
  lemma {:induction false} JoinedWaiters(s: State, n: nat)
    requires Counted(s) && s.clients == 0 && n < |s.launches|
    ensures s.launches[n].waiter.Absent? || s.launches[n].waiter.Released? || s.launches[n].waiter.Cancelled?
  {
    CountNone(s.launches, WaiterBusy());
    assert !WaiterBusy()(s.launches[n]);
  }

  lemma {:induction false} VictimStart(s: State, e: StartEvent, n: nat)
    requires VictimOk(s, s.body, n) && ContextOk(s) && StartEnabled(s, e)
    ensures VictimOk(StartNext(s, e), s.body, n)
  {
    match e
    case StartCall => case StartRefused => case SetRunner(_) => case RunnerStart(_) => case MakeCtx =>
    case SelectTimeout => case SelectExited => case SelectLine(_) => case StartReturn => case _ =>
  }

  lemma {:induction false} VictimGo(s: State, e: GoEvent, n: nat)
    requires VictimOk(s, s.body, n) && GoEnabled(s, e)
    ensures VictimOk(GoNext(s, e), s.body, n)
  {
    GoLeavesKill(s, e);
  }

  lemma {:induction false} RunnerExists(s: State, e: StartEvent)
    requires (s.runner.Some? ==> s.runner.value < |s.launches|) && StartEnabled(s, e)
    ensures StartNext(s, e).runner.Some? ==> StartNext(s, e).runner.value < |StartNext(s, e).launches|
  {
    match e
    case StartCall => case StartRefused => case SetRunner(_) => case RunnerStart(_) => case MakeCtx =>
    case SelectTimeout => case SelectExited => case SelectLine(_) => case StartReturn => case _ =>
  }

  lemma {:induction false} BodyJoin(s: State)
    requires BodyOk(s) && Counted(s) && KillEnabled(s, BodyJoins) && LaunchOk(s, s.body.n)
    ensures BodyOk(KillNext(s, BodyJoins))
  {
    JoinedWaiters(s, s.body.n);
  }

  lemma {:induction false} BodyStop(s: State)
    requires BodyOk(s) && KillEnabled(s, BodyKills)
    ensures BodyOk(KillNext(s, BodyKills))
  {
  }

  lemma {:induction false} BodyRests(s: State, e: KillEvent)
    requires BodyOk(s) && KillEnabled(s, e)
    requires e.KillCall? || e.OnceEnters? || e.OnceReturns? || e.OtherJoins? || e.OtherLeaves?
    ensures BodyOk(KillNext(s, e))
  {
    match e
    case KillCall => case OnceEnters => case OnceReturns => case OtherJoins(_) => case OtherLeaves(_) =>
  }

  lemma {:induction false} BodyMoves(s: State, e: KillEvent)
    requires BodyOk(s) && KillEnabled(s, e) && !e.BodyJoins? && !e.BodyKills?
    ensures BodyOk(KillNext(s, e))
  {
    match e
    case BodyReads => case BodyWaits => case BodyMarks => case BodyClears => case BodyForgets =>
    case _ => BodyRests(s, e);
  }

  lemma {:induction false} BodyKill(s: State, e: KillEvent)
    requires BodyOk(s) && Counted(s) && KillEnabled(s, e)
    requires s.body.Stopped? ==> LaunchOk(s, s.body.n)
    ensures BodyOk(KillNext(s, e))
  {
    match e
    case BodyJoins => BodyJoin(s);
    case BodyKills => BodyStop(s);
    case _ => BodyMoves(s, e);
  }

  lemma {:induction false} BodyStart(s: State, e: StartEvent)
    requires BodyOk(s) && ContextOk(s) && StartEnabled(s, e)
    ensures BodyOk(StartNext(s, e))
  {
    StartLeavesKill(s, e);
    RunnerExists(s, e);
    if Victim(s.body).Some? { VictimStart(s, e, Victim(s.body).value); }
  }

  lemma {:induction false} BodyGo(s: State, e: GoEvent)
    requires BodyOk(s) && GoEnabled(s, e)
    ensures BodyOk(GoNext(s, e))
  {
    GoLeavesKill(s, e);
    if Victim(s.body).Some? { VictimGo(s, e, Victim(s.body).value); }
  }

  lemma {:induction false} SafeStep(s: State, e: Event)
    requires Safe(s) && Enabled(s, e)
    ensures Safe(Next(s, e))
  {
    OrderedStep(s, e);
    forall k: nat | k in Next(s, e).cancelled ensures Canceller(Next(s, e), k) { CancellerStep(s, e, k); }
    match e {
      case OfStart(e) =>
        StartLeavesKill(s, e);
        BodyStart(s, e);
      case OfGo(g) =>
        GoLeavesKill(s, g);
        BodyGo(s, g);
      case OfKill(k) =>
        if s.body.Stopped? { assert LaunchOk(s, s.body.n); }
        GateKill(s, k);
        ListKill(s, k);
        BodyKill(s, k);
    }
  }

  lemma SafeInit(self: Client, isManaged: bool, others: seq<Client>)
    requires Distinct(others) && self !in others
    ensures Safe(Init(self, isManaged, others))
  {
  }

  lemma {:induction false} SafeRun(s: State, es: seq<Event>)
    requires Safe(s) && Runs(s, es)
    ensures Safe(After(s, es))
    decreases es
  {
    if es != [] {
      SafeStep(s, es[0]);
      SafeRun(Next(s, es[0]), es[1..]);
    }
  }

  // ---------------------------------------------------------------- the theorems

  /** The waiter of some launch captured context `k`, saw both pipe readers of its launch done and
      set exited before it cancelled. */
  ghost predicate CancelledInOrder(s: State, k: nat)
  {
    s.exited && exists n :: 0 <= n < |s.launches| && s.launches[n].waiter == Cancelled(k) &&
                            ReaderDone(s.launches[n].stderr) && ReaderDone(s.launches[n].stdout)
  }

  ghost predicate CleanedUp(s: State)
  {
    s.body.Ended? && s.body.cleaned.Some? ==>
      var n := s.body.cleaned.value;
      && n < |s.launches| && (s.launches[n].started ==> s.exited)
      && (s.runner.Some? ==> n < s.runner.value) && s.self !in s.managed
  }

  /** What the invariant says of a state. */
  lemma {:induction false} Promises(s: State)
    requires Safe(s)
    ensures !Enabled(s, OfStart(SelectExited)) && s.bodyRuns <= 1 && CleanedUp(s)
    ensures forall k: nat :: k in s.cancelled ==> CancelledInOrder(s, k)
  {
    if s.body.Ended? && s.body.cleaned.Some? {
      assert LaunchOk(s, s.body.cleaned.value);
    }
    forall k: nat | k in s.cancelled ensures CancelledInOrder(s, k) {
      var m :| 0 <= m < |s.launches| && s.launches[m].waiter == Cancelled(k);
      assert LaunchOk(s, m);
    }
  }

  /** In every interleaving and for any number of launches: runner.Wait is called only after both pipe
      readers of its launch are done, and every cancelled context was cancelled in order by a waiter. */
  lemma {:induction false} WaitsAfterReaders(self: Client, isManaged: bool, others: seq<Client>, es: seq<Event>, n: nat)
    requires Distinct(others) && self !in others && Runs(Init(self, isManaged, others), es)
    ensures var s := After(Init(self, isManaged, others), es);
            && (n < |s.launches| && PastPipes(s.launches[n].waiter) ==>
                  ReaderDone(s.launches[n].stderr) && ReaderDone(s.launches[n].stdout))
            && (forall k: nat :: k in s.cancelled ==> CancelledInOrder(s, k))
  {
    SafeInit(self, isManaged, others);
    SafeRun(Init(self, isManaged, others), es);
    var s := After(Init(self, isManaged, others), es);
    assert LaunchOk(s, n);
    Promises(s);
  }

  /** Start's "plugin exited before we could connect" arm is never ready: while Start holds the
      lock nobody can have cancelled the context it is selecting on. */
  lemma {:induction false} ExitedArmIsDead(self: Client, isManaged: bool, others: seq<Client>, es: seq<Event>)
    requires Distinct(others) && self !in others && Runs(Init(self, isManaged, others), es)
    ensures !Enabled(After(Init(self, isManaged, others), es), OfStart(SelectExited))
  {
    SafeInit(self, isManaged, others);
    SafeRun(Init(self, isManaged, others), es);
    Promises(After(Init(self, isManaged, others), es));
  }

  /** The body of kill runs at most once, and a finished body has waited for the plugin it found: if
      that one was ever launched the client is exited.  Its runner is gone (a later one may have
      replaced it) and the client is off the managed list. */
  lemma {:induction false} KillRunsOnceAndCleansUp(self: Client, isManaged: bool, others: seq<Client>, es: seq<Event>)
    requires Distinct(others) && self !in others && Runs(Init(self, isManaged, others), es)
    ensures var s := After(Init(self, isManaged, others), es);
            s.bodyRuns <= 1 && s.self == self && CleanedUp(s)
  {
    SafeInit(self, isManaged, others);
    SafeRun(Init(self, isManaged, others), es);
    SelfStays(Init(self, isManaged, others), es);
    Promises(After(Init(self, isManaged, others), es));
  }

  lemma {:induction false} SelfStays(s: State, es: seq<Event>)
    requires Runs(s, es)
    ensures After(s, es).self == s.self && After(s, es).isManaged == s.isManaged
    decreases es
  {
    if es != [] {
      SelfStaysStep(s, es[0]);
      SelfStays(Next(s, es[0]), es[1..]);
    }
  }

  lemma {:induction false} SelfStaysStep(s: State, e: Event)
    requires Enabled(s, e)
    ensures Next(s, e).self == s.self && Next(s, e).isManaged == s.isManaged
  {
    match e
    case OfStart(e) => StartLeavesKill(s, e);
    case OfGo(g) => GoLeavesKill(s, g);
    case OfKill(_) =>
  }

  /** With a single launch: no runner is left and the plugin has exited. */
  lemma {:induction false} KillAfterOneLaunch(self: Client, isManaged: bool, others: seq<Client>, es: seq<Event>)
    requires Distinct(others) && self !in others && Runs(Init(self, isManaged, others), es)
    requires var s := After(Init(self, isManaged, others), es);
             |s.launches| == 1 && s.launches[0].started && s.body.Ended? && s.body.cleaned.Some?
    ensures var s := After(Init(self, isManaged, others), es);
            s.exited && s.runner.None? && self !in s.managed
  {
    KillRunsOnceAndCleansUp(self, isManaged, others, es);
    SafeInit(self, isManaged, others);
    SafeRun(Init(self, isManaged, others), es);
  }

  // ---------------------------------------------------------------- launching again

  /** The body of kill can still come to stop launch `n`, if that is what c.runner names. */
  predicate CanStop(s: State, n: nat)
  {
    s.gate.Fresh? || s.body.Entered? || s.body == Stopping(n)
  }

  /** Launch `n` is not killed, its Start is over and no Kill can stop it any more. */
  ghost predicate Spared(s: State, n: nat)
  {
    !CanStop(s, n) && n < |s.launches| && !s.launches[n].killed && !StartingOn(s, n)
  }

  lemma {:induction false} SparedStart(s: State, e: StartEvent, n: nat)
    requires StartEnabled(s, e) && Spared(s, n)
    ensures Spared(StartNext(s, e), n)
  {
  }

  lemma {:induction false} SparedGo(s: State, e: GoEvent, n: nat)
    requires GoEnabled(s, e) && Spared(s, n)
    ensures Spared(GoNext(s, e), n)
  {
  }

  lemma {:induction false} SparedKill(s: State, e: KillEvent, n: nat)
    requires KillEnabled(s, e) && GateOk(s) && Spared(s, n)
    ensures Spared(KillNext(s, e), n)
  {
  }

  lemma {:induction false} SparedStep(s: State, e: Event, n: nat)
    requires Enabled(s, e) && GateOk(s) && Spared(s, n)
    ensures Spared(Next(s, e), n)
  {
    match e
    case OfStart(e) => SparedStart(s, e, n);
    case OfGo(g) => SparedGo(s, g, n);
    case OfKill(k) => SparedKill(s, k, n);
  }

  lemma {:induction false} SparedForever(s: State, es: seq<Event>, n: nat)
    requires Safe(s) && Runs(s, es) && Spared(s, n)
    ensures Spared(After(s, es), n)
    decreases es
  {
    if es != [] {
      SafeStep(s, es[0]);
      SparedStep(s, es[0], n);
      SparedForever(Next(s, es[0]), es[1..], n);
    }
  }

  ghost predicate Stops(s: State, es: seq<Event>, n: nat)
  {
    Runs(s, es) && n < |After(s, es).launches| && After(s, es).launches[n].killed
  }

  lemma {:induction false} RunsPrepend(s: State, e: Event, es: seq<Event>)
    requires Enabled(s, e) && Runs(Next(s, e), es)
    ensures Runs(s, [e] + es) && After(s, [e] + es) == After(Next(s, e), es)
  {
    assert ([e] + es)[1..] == es;
  }

  /** The steps of kill's body from where it is to the forced kill. */
  function KillSteps(s: State): seq<Event>
  {
    if s.body.Stopping? then [OfKill(BodyKills)] + []
    else if s.body.Entered? then [OfKill(BodyReads)] + ([OfKill(BodyKills)] + [])
    else [OfKill(KillCall)] + ([OfKill(OnceEnters)] + ([OfKill(BodyReads)] + ([OfKill(BodyKills)] + [])))
  }

  lemma {:induction false} KillStops(s: State, n: nat)
    requires s.start.None? && s.runner == Some(n) && n < |s.launches| && s.launches[n].named
    requires CanStop(s, n) && GateOk(s)
    ensures Stops(s, KillSteps(s), n)
    decreases if s.body.Stopping? then 0 else if s.body.Entered? then 1 else 2
  {
    if s.body.Stopping? {
      RunsPrepend(s, OfKill(BodyKills), []);
    } else if s.body.Entered? {
      var s1 := Next(s, OfKill(BodyReads));
      KillStops(s1, n);
      RunsPrepend(s, OfKill(BodyReads), KillSteps(s1));
    } else {
      var s1 := Next(s, OfKill(KillCall));
      var s2 := Next(s1, OfKill(OnceEnters));
      KillStops(s2, n);
      RunsPrepend(s1, OfKill(OnceEnters), KillSteps(s2));
      RunsPrepend(s, OfKill(KillCall), [OfKill(OnceEnters)] + KillSteps(s2));
    }
  }

  /** At every safe state with a named runner whose Start is over, some run kills its plugin, and then
      Kill's own steps do, if and only if the gate is fresh, its body has yet to look at c.runner, or it
      is stopping just that plugin.  A spent gate kills nobody. */
  lemma {:induction false} KilledExactlyWhenTheGateIsOpen(s: State, n: nat)
    requires Safe(s) && s.start.None? && s.runner == Some(n) && s.launches[n].named && !s.launches[n].killed
    ensures (exists es :: Stops(s, es, n)) <==> CanStop(s, n)
    ensures CanStop(s, n) ==> Stops(s, KillSteps(s), n)
    ensures s.gate.Spent? ==> !CanStop(s, n)
  {
    if CanStop(s, n) {
      KillStops(s, n);
    } else if es :| Stops(s, es, n) {
      SparedForever(s, es, n);
    }
  }

  ghost predicate Reaches(s: State, t: State)
  {
    exists es :: Runs(s, es) && After(s, es) == t
  }

  lemma {:induction false} RunsAppend(s: State, es: seq<Event>, e: Event)
    requires Runs(s, es) && Enabled(After(s, es), e)
    ensures Runs(s, es + [e]) && After(s, es + [e]) == Next(After(s, es), e)
    decreases es
  {
    if es == [] {
      assert [e][1..] == [] && es + [e] == [e];
    } else {
      assert (es + [e])[1..] == es[1..] + [e];
      RunsAppend(Next(s, es[0]), es[1..], e);
    }
  }

  lemma {:induction false} Extend(s: State, t: State, e: Event) returns (u: State)
    requires Reaches(s, t) && Enabled(t, e)
    ensures u == Next(t, e) && Reaches(s, u)
  {
    u := Next(t, e);
    var es :| Runs(s, es) && After(s, es) == t;
    RunsAppend(s, es, e);
  }

  /** A launch that never started leaves its runner behind. */
  lemma {:induction false} FailedStart(self: Client) returns (t: State)
    ensures Reaches(Init(self, false, []), t) && t.gate.Fresh? && t.body.NotRun? && t.pendingKills == 0 && t.clients == 0
    ensures t.start.None? && t.runner == Some(0) && !t.address && !t.exited && !t.isManaged
    ensures |t.launches| == 1 && t.launches[0].named
  {
    var z := Init(self, false, []);
    assert Runs(z, []) && After(z, []) == z;
    t := Extend(z, z, OfStart(StartCall));
    t := Extend(z, t, OfStart(SetRunner(true)));
    t := Extend(z, t, OfStart(RunnerStart(false)));
  }

  /** A Kill after it spends the gate. */
  lemma {:induction false} KillAfterFailedStart(self: Client) returns (t: State)
    ensures Reaches(Init(self, false, []), t) && t.gate.Spent?
    ensures t.start.None? && t.runner.None? && !t.address && |t.launches| == 1 && !t.exited
  {
    var z := Init(self, false, []);
    t := FailedStart(self);
    t := Extend(z, t, OfKill(KillCall));
    t := Extend(z, t, OfKill(OnceEnters));
    t := Extend(z, t, OfKill(BodyReads));
    t := Extend(z, t, OfKill(BodyKills));
    t := Extend(z, t, OfKill(BodyMarks));
    t := Extend(z, t, OfKill(BodyJoins));
    t := Extend(z, t, OfKill(BodyClears));
    t := Extend(z, t, OfKill(BodyForgets));
  }

  /** A successful Start, step by step. */
  lemma {:induction false} Relaunch(z: State, s: State) returns (t: State)
    requires Reaches(z, s) && s.start.None? && !s.address && s.gate.Spent?
    ensures Reaches(z, t) && t.start == Some(Launching(|s.launches|, StdoutGoing))
    ensures t.gate.Spent? && t.runner == Some(|s.launches|)
    ensures |t.launches| == |s.launches| + 1 && t.launches[|s.launches|].started && !t.launches[|s.launches|].killed
  {
    t := Extend(z, s, OfStart(StartCall));
    t := Extend(z, t, OfStart(SetRunner(true)));
    t := Extend(z, t, OfStart(RunnerStart(true)));
    t := Extend(z, t, OfStart(MakeCtx));
    t := Extend(z, t, OfStart(GoStderr));
    t := Extend(z, t, OfStart(GoWaiter));
    t := Extend(z, t, OfStart(GoStdout));
  }

  /** So a client whose first Start could not run the command, was killed and then started again,
      has a plugin that Kill will never stop. */
  lemma {:induction false} UnkillableRestart(self: Client) returns (t: State)
    ensures Reaches(Init(self, false, []), t) && t.address && t.runner == Some(1) && t.gate.Spent?
    ensures |t.launches| == 2 && t.launches[1].started && !t.launches[1].killed
    ensures forall es :: Runs(t, es) ==> |After(t, es).launches| > 1 && !After(t, es).launches[1].killed
  {
    var z := Init(self, false, []);
    t := KillAfterFailedStart(self);
    t := Relaunch(z, t);
    t := Extend(z, t, OfStart(AddDrain));
    t := Extend(z, t, OfStart(SelectLine(true)));
    t := Extend(z, t, OfStart(StartReturn));
    var es0 :| Runs(z, es0) && After(z, es0) == t;
    SafeInit(self, false, []);
    SafeRun(z, es0);
    forall es | Runs(t, es) ensures |After(t, es).launches| > 1 && !After(t, es).launches[1].killed {
      SparedForever(t, es, 1);
    }
  }
}
