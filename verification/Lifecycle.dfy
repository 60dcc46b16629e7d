/**
 A Client's lifecycle (client.go): Start, which holds c.l from its first line to its last; the
 two pipe readers, the drain and the waiter goroutine of each launch; the two wait groups; the
 done context; any number of Kill callers behind a sync.Once; and the global list of managed
 clients.  A step is one statement that other goroutines can observe.  A Start that fails
 leaves no address, so a client may be launched any number of times.
*/
module Lifecycle {
  import opened Basics

  type Client = nat

  datatype Reader = Off | Reading | PipeDone | Finished

  datatype Drain = NotAdded | Added | Draining | Drained

  /** The waiter goroutine (client.go:889-915); `ctx` is whose cancel function its first defer captured. */
  datatype Waiter =
    | Absent
    | Created
    | Captured(ctx: nat)
    | PipesPassed(ctx: nat)
    | Waited(ctx: nat)
    | Marked(ctx: nat)
    | Released(ctx: nat)
    | Cancelled(ctx: nat)

  /** One runner: `named` says its ID() is not empty, `started` that runner.Start succeeded,
      `added` that pipesWaitGroup.Add(2) was called for it. */
  datatype Launch = Launch(
    named: bool, started: bool, added: bool, killed: bool,
    stderr: Reader, stdout: Reader, drain: Drain, waiter: Waiter)

  /** How far a Start has got with its launch. */
  datatype Stage =
    | HasRunner
    | RunnerStarted
    | HasCtx
    | StderrGoing
    | WaiterGoing
    | StdoutGoing
    | Selecting
    | Returning(ok: bool)

  /** Where the Start that holds c.l is; `n` is its launch. */
  datatype StartAt = Checking | Launching(n: nat, stage: Stage)

  datatype Gate = Fresh | Busy | Spent

  /** Where the one execution of kill() is; it ends with the launch it cleaned up, if it found one. */
  datatype Body =
    | NotRun
    | Entered
    | Stopping(n: nat)
    | Forced(n: nat)
    | Stopped(n: nat)
    | Joined(n: nat)
    | Cleared(n: nat)
    | Ended(cleaned: Option<nat>)

  datatype State = State(
    launches: seq<Launch>,
    start: Option<StartAt>,
    runner: Option<nat>,
    address: bool,
    exited: bool,
    doneCtx: Option<nat>,
    cancelled: set<nat>,
    pipes: int,
    clients: int,
    gate: Gate,
    pendingKills: nat,
    body: Body,
    bodyRuns: nat,
    processKilled: bool,
    self: Client,
    isManaged: bool,
    managed: seq<Client>)

  function Init(self: Client, isManaged: bool, others: seq<Client>): State
  {
    State([], None, None, false, false, None, {}, 0, 0, Fresh, 0, NotRun, 0, false, self, isManaged,
          if isManaged then others + [self] else others)
  }

  // ---------------------------------------------------------------- Start

  datatype StartEvent =
    | StartCall
    | StartRefused
    | SetRunner(named: bool)
    | RunnerStart(ok: bool)
    | MakeCtx
    | GoStderr
    | GoWaiter
    | GoStdout
    | AddDrain
    | SelectTimeout
    | SelectExited
    | SelectLine(ok: bool)
    | StartReturn

  predicate Follows(stage: Stage, e: StartEvent)
  {
    match e
    case RunnerStart(_) => stage.HasRunner?
    case MakeCtx => stage.RunnerStarted?
    case GoStderr => stage.HasCtx?
    case GoWaiter => stage.StderrGoing?
    case GoStdout => stage.WaiterGoing?
    case AddDrain => stage.StdoutGoing?
    case StartReturn => stage.Returning?
    case _ => stage.Selecting?
  }

  predicate StartEnabled(s: State, e: StartEvent)
  {
    match e
    case StartCall => s.start.None?
    case StartRefused => s.start == Some(Checking)
    case SetRunner(_) => s.start == Some(Checking)
    case _ =>
      && s.start.Some? && s.start.value.Launching? && s.start.value.n < |s.launches| && Follows(s.start.value.stage, e)
      && (e.SelectExited? ==> s.doneCtx.Some? && s.doneCtx.value in s.cancelled)
  }

  function SetLaunch(s: State, n: nat, l: Launch): State
    requires n < |s.launches|
  {
    s.(launches := s.launches[n := l])
  }

  /** The four goroutines of a launch, each announced to clientWaitGroup as it is started. */
  predicate Goes(e: StartEvent)
  {
    e.GoStderr? || e.GoWaiter? || e.GoStdout? || e.AddDrain?
  }

  function Going(l: Launch, e: StartEvent): Launch
    requires Goes(e)
  {
    match e
    case GoStderr => l.(stderr := Reading)
    case GoWaiter => l.(waiter := Created)
    case GoStdout => l.(stdout := Reading)
    case AddDrain => l.(drain := Added)
  }

  function Gone(e: StartEvent): Stage
    requires Goes(e)
  {
    match e
    case GoStderr => StderrGoing
    case GoWaiter => WaiterGoing
    case GoStdout => StdoutGoing
    case AddDrain => Selecting
  }

  function GoesStep(s: State, e: StartEvent): State
    requires StartEnabled(s, e) && Goes(e)
  {
    var n := s.start.value.n;
    SetLaunch(s, n, Going(s.launches[n], e)).(clients := s.clients + 1, start := Some(Launching(n, Gone(e))))
  }

  function Selected(s: State, ok: bool): State
    requires s.start.Some? && s.start.value.Launching?
  {
    s.(start := Some(Launching(s.start.value.n, Returning(ok))))
  }

  /** The deferred functions, last first: start the drain, kill on error, unlock. */
  function ReturnStep(s: State): State
    requires StartEnabled(s, StartReturn)
  {
    var n, ok := s.start.value.n, s.start.value.stage.ok;
    SetLaunch(s, n, s.launches[n].(drain := Draining, killed := s.launches[n].killed || !ok)).(
      address := ok, start := None)
  }

  function StartNext(s: State, e: StartEvent): State
    requires StartEnabled(s, e)
  {
    match e
    case StartCall => if s.address then s else s.(start := Some(Checking))
    case StartRefused => s.(start := None)
    case SetRunner(named) =>
      var n := |s.launches|;
      s.(launches := s.launches + [Launch(named, false, false, false, Off, Off, NotAdded, Absent)],
         runner := Some(n), start := Some(Launching(n, HasRunner)))
    case RunnerStart(ok) =>
      var n := s.start.value.n;
      if ok then SetLaunch(s, n, s.launches[n].(started := true)).(start := Some(Launching(n, RunnerStarted)))
      else s.(start := None)
    case MakeCtx =>
      var n := s.start.value.n;
      SetLaunch(s, n, s.launches[n].(added := true)).(
        doneCtx := Some(n), pipes := s.pipes + 2, start := Some(Launching(n, HasCtx)))
    case SelectTimeout => Selected(s, false)
    case SelectExited => Selected(s, false)
    case SelectLine(ok) => Selected(s, ok)
    case StartReturn => ReturnStep(s)
    case _ => GoesStep(s, e)
  }

  // ---------------------------------------------------------------- the goroutines of a launch

  datatype GoEvent =
    | StderrEnds(n: nat)
    | StderrLeaves(n: nat)
    | StdoutEnds(n: nat)
    | StdoutLeaves(n: nat)
    | DrainEnds(n: nat)
    | WaiterCaptures(n: nat)
    | WaiterPassesPipes(n: nat)
    | WaiterReaps(n: nat)
    | WaiterMarks(n: nat)
    | WaiterLeaves(n: nat)
    | WaiterCancels(n: nat)

  predicate LinesClosed(l: Launch)
  {
    l.stdout.PipeDone? || l.stdout.Finished?
  }

  predicate GoEnabled(s: State, e: GoEvent)
  {
    e.n < |s.launches| &&
    var l := s.launches[e.n];
    match e
    case StderrEnds(_) => l.stderr.Reading?
    case StderrLeaves(_) => l.stderr.PipeDone?
    case StdoutEnds(_) => l.stdout.Reading?
    case StdoutLeaves(_) => l.stdout.PipeDone?
    case DrainEnds(_) => l.drain.Draining? && LinesClosed(l)
    case WaiterCaptures(_) => l.waiter.Created? && s.doneCtx.Some?
    case WaiterPassesPipes(_) => l.waiter.Captured? && s.pipes == 0
    case WaiterReaps(_) => l.waiter.PipesPassed?
    case WaiterMarks(_) => l.waiter.Waited? && s.start.None?
    case WaiterLeaves(_) => l.waiter.Marked?
    case WaiterCancels(_) => l.waiter.Released?
  }

  function GoNext(s: State, e: GoEvent): State
    requires GoEnabled(s, e)
  {
    var n, l := e.n, s.launches[e.n];
    match e
    case StderrEnds(_) => SetLaunch(s, n, l.(stderr := PipeDone)).(pipes := s.pipes - 1)
    case StderrLeaves(_) => SetLaunch(s, n, l.(stderr := Finished)).(clients := s.clients - 1)
    case StdoutEnds(_) => SetLaunch(s, n, l.(stdout := PipeDone)).(pipes := s.pipes - 1)
    case StdoutLeaves(_) => SetLaunch(s, n, l.(stdout := Finished)).(clients := s.clients - 1)
    case DrainEnds(_) => SetLaunch(s, n, l.(drain := Drained)).(clients := s.clients - 1)
    case WaiterCaptures(_) => SetLaunch(s, n, l.(waiter := Captured(s.doneCtx.value)))
    case WaiterPassesPipes(_) => SetLaunch(s, n, l.(waiter := PipesPassed(l.waiter.ctx)))
    case WaiterReaps(_) => SetLaunch(s, n, l.(waiter := Waited(l.waiter.ctx)))
    case WaiterMarks(_) => SetLaunch(s, n, l.(waiter := Marked(l.waiter.ctx))).(exited := true)
    case WaiterLeaves(_) => SetLaunch(s, n, l.(waiter := Released(l.waiter.ctx))).(clients := s.clients - 1)
    case WaiterCancels(_) =>
      SetLaunch(s, n, l.(waiter := Cancelled(l.waiter.ctx))).(cancelled := s.cancelled + {l.waiter.ctx})
  }

  // ---------------------------------------------------------------- Kill

  datatype KillEvent =
    | KillCall
    | OnceEnters
    | OnceReturns
    | BodyReads
    | BodyWaits
    | BodyKills
    | BodyMarks
    | BodyJoins
    | BodyClears
    | BodyForgets
    | OtherJoins(c: Client)
    | OtherLeaves(c: Client)

  predicate KillEnabled(s: State, e: KillEvent)
  {
    match e
    case KillCall => s.start.None?
    case OnceEnters => s.pendingKills > 0 && s.gate.Fresh?
    case OnceReturns => s.pendingKills > 0 && s.gate.Spent?
    case BodyReads => s.body.Entered? && s.start.None? && (s.runner.Some? ==> s.runner.value < |s.launches|)
    case BodyWaits => s.body.Stopping? && s.doneCtx.Some? && s.doneCtx.value in s.cancelled
    case BodyKills => s.body.Stopping? && s.body.n < |s.launches|
    case BodyMarks => s.body.Forced? && s.start.None?
    case BodyJoins => s.body.Stopped? && s.clients == 0
    case BodyClears => s.body.Joined? && s.start.None?
    case BodyForgets => s.body.Cleared?
    case OtherJoins(c) => c != s.self && c !in s.managed
    case OtherLeaves(c) => c != s.self
  }

  /** removeManagedClient: drop the first occurrence, keep the rest in order. */
  function Without(cs: seq<Client>, c: Client): seq<Client>
  {
    if cs == [] then [] else if cs[0] == c then cs[1..] else [cs[0]] + Without(cs[1..], c)
  }

  function KillNext(s: State, e: KillEvent): State
    requires KillEnabled(s, e)
  {
    match e
    case KillCall => if s.runner.None? then s else s.(pendingKills := s.pendingKills + 1)
    case OnceEnters =>
      s.(pendingKills := s.pendingKills - 1, gate := Busy, body := Entered, bodyRuns := s.bodyRuns + 1)
    case OnceReturns => s.(pendingKills := s.pendingKills - 1)
    case BodyReads =>
      if s.runner.None? || !s.launches[s.runner.value].named then s.(body := Ended(None), gate := Spent)
      else s.(body := Stopping(s.runner.value))
    case BodyWaits => s.(body := Stopped(s.body.n))
    case BodyKills => SetLaunch(s, s.body.n, s.launches[s.body.n].(killed := true)).(body := Forced(s.body.n))
    case BodyMarks => s.(body := Stopped(s.body.n), processKilled := true)
    case BodyJoins => s.(body := Joined(s.body.n))
    case BodyClears => s.(body := Cleared(s.body.n), runner := None)
    case BodyForgets =>
      s.(body := Ended(Some(s.body.n)), gate := Spent, managed := if s.isManaged then Without(s.managed, s.self) else s.managed)
    case OtherJoins(c) => s.(managed := s.managed + [c])
    case OtherLeaves(c) => s.(managed := Without(s.managed, c))
  }

  // ---------------------------------------------------------------- interleavings

  datatype Event = OfStart(e: StartEvent) | OfGo(g: GoEvent) | OfKill(k: KillEvent)

  predicate Enabled(s: State, e: Event)
  {
    match e
    case OfStart(e) => StartEnabled(s, e)
    case OfGo(g) => GoEnabled(s, g)
    case OfKill(k) => KillEnabled(s, k)
  }

  function Next(s: State, e: Event): State
    requires Enabled(s, e)
  {
    match e
    case OfStart(e) => StartNext(s, e)
    case OfGo(g) => GoNext(s, g)
    case OfKill(k) => KillNext(s, k)
  }

  predicate Runs(s: State, es: seq<Event>)
    decreases es
  {
    es == [] || (Enabled(s, es[0]) && Runs(Next(s, es[0]), es[1..]))
  }

  function After(s: State, es: seq<Event>): State
    requires Runs(s, es)
    decreases es
  {
    if es == [] then s else After(Next(s, es[0]), es[1..])
  }
}
