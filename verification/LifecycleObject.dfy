/**
 The client as the object it is: the fields Start, Kill and the goroutines of a launch update in
 place, and the list of managed clients that all clients share.  Every method keeps the invariant of
 the model and takes its step.
*/
module LifecycleObject {
  import opened Basics
  import L = Lifecycle
  import opened LifecycleSafety

  /** managedClients. */
  class ManagedClients {
    var clients: seq<L.Client>

    constructor (clients: seq<L.Client>)
      ensures this.clients == clients
    {
      this.clients := clients;
    }

    /** removeManagedClient: the first occurrence goes, and a client that is not there is no error. */
    method Remove(c: L.Client)
      modifies this
      ensures clients == L.Without(old(clients), c)
    {
      var i := 0;
      while i < |clients|
        invariant 0 <= i <= |clients| && clients == old(clients)
        invariant L.Without(clients, c) == clients[..i] + L.Without(clients[i..], c)
      {
        if clients[i] == c {
          assert clients[i..][1..] == clients[i + 1..];
          clients := clients[..i] + clients[i + 1..];
          return;
        }
        assert clients[i..][1..] == clients[i + 1..];
        assert clients[..i] + ([clients[i]] + L.Without(clients[i + 1..], c))
            == clients[..i + 1] + L.Without(clients[i + 1..], c);
        i := i + 1;
      }
      assert clients[..i] == clients && clients[i..] == [];
    }
  }

  class Client {
    const self: L.Client
    const isManaged: bool
    const managed: ManagedClients
    var runner: Option<nat>
    var address: bool
    var exited: bool
    var doneCtx: Option<nat>
    var cancelled: set<nat>
    var pipesWaitGroup: int
    var clientWaitGroup: int
    var killOnce: L.Gate
    var killBodyRuns: nat
    var processKilled: bool
    var launches: seq<L.Launch>
    var start: Option<L.StartAt>
    var pendingKills: nat
    var body: L.Body

    ghost function Snapshot(): L.State
      reads this, managed
    {
      L.State(launches, start, runner, address, exited, doneCtx, cancelled, pipesWaitGroup, clientWaitGroup,
              killOnce, pendingKills, body, killBodyRuns, processKilled, self, isManaged, managed.clients)
    }

    ghost predicate Valid()
      reads this, managed
    {
      Safe(Snapshot())
    }

    /** NewClient: a managed client joins the list. */
    constructor (self: L.Client, isManaged: bool, managed: ManagedClients)
      requires Distinct(managed.clients) && self !in managed.clients
      modifies managed
      ensures Valid() && this.managed == managed
      ensures Snapshot() == L.Init(self, isManaged, old(managed.clients))
    {
      this.self, this.isManaged, this.managed := self, isManaged, managed;
      runner, address, exited, doneCtx, cancelled := None, false, false, None, {};
      pipesWaitGroup, clientWaitGroup, killOnce, killBodyRuns, processKilled := 0, 0, L.Fresh, 0, false;
      launches, start, pendingKills, body := [], None, 0, L.NotRun;
      new;
      SafeInit(self, isManaged, managed.clients);
      if isManaged {
        managed.clients := managed.clients + [self];
      }
    }

    // -------------------------------------------------------------- Start

    /** Lock, and return at once if there is an address. */
    method StartEnter() returns (goOn: bool)
      requires Valid() && L.Enabled(Snapshot(), L.OfStart(L.StartCall))
      modifies this`start
      ensures Valid() && Snapshot() == L.Next(old(Snapshot()), L.OfStart(L.StartCall))
      ensures goOn == !address
      ensures start == if old(address) then old(start) else Some(L.Checking)
    {
      SafeStep(Snapshot(), L.OfStart(L.StartCall));
      goOn := !address;
      if goOn {
        start := Some(L.Checking);
      }
    }

    /** c.runner is set before the runner is started; a runner is known by its launch. */
    method StartSetRunner(named: bool)
      requires Valid() && L.Enabled(Snapshot(), L.OfStart(L.SetRunner(named)))
      modifies this`runner, this`start, this`launches
      ensures Valid() && Snapshot() == L.Next(old(Snapshot()), L.OfStart(L.SetRunner(named)))
      ensures runner == Some(|old(launches)|) && start == Some(L.Launching(|old(launches)|, L.HasRunner))
      ensures launches == old(launches) + [L.Launch(named, false, false, false, L.Off, L.Off, L.NotAdded, L.Absent)]
    {
      SafeStep(Snapshot(), L.OfStart(L.SetRunner(named)));
      var n := |launches|;
      runner := Some(n);
      launches := launches + [L.Launch(named, false, false, false, L.Off, L.Off, L.NotAdded, L.Absent)];
      start := Some(L.Launching(n, L.HasRunner));
    }

    /** A new done context, and both pipe readers announced before any of them runs. */
    method MakeContext()
      requires L.Enabled(Snapshot(), L.OfStart(L.MakeCtx))
      modifies this`start, this`launches, this`doneCtx, this`pipesWaitGroup
      ensures Snapshot() == L.Next(old(Snapshot()), L.OfStart(L.MakeCtx))
      ensures var n := old(start.value.n);
              && doneCtx == Some(n) && pipesWaitGroup == old(pipesWaitGroup) + 2 && start == Some(L.Launching(n, L.HasCtx))
              && launches == old(launches)[n := old(launches[n]).(added := true)]
    {
      var n := start.value.n;
      doneCtx, pipesWaitGroup := Some(n), pipesWaitGroup + 2;
      launches, start := launches[n := launches[n].(added := true)], Some(L.Launching(n, L.HasCtx));
    }

    method StartContext()
      requires Valid() && L.Enabled(Snapshot(), L.OfStart(L.MakeCtx))
      modifies this`start, this`launches, this`doneCtx, this`pipesWaitGroup
      ensures Valid() && Snapshot() == L.Next(old(Snapshot()), L.OfStart(L.MakeCtx))
      ensures var n := old(start.value.n);
              && doneCtx == Some(n) && pipesWaitGroup == old(pipesWaitGroup) + 2 && start == Some(L.Launching(n, L.HasCtx))
              && launches == old(launches)[n := old(launches[n]).(added := true)]
    {
      SafeStep(Snapshot(), L.OfStart(L.MakeCtx));
      MakeContext();
    }

    /** clientWaitGroup.Add(1), and one goroutine of the launch is on its way. */
    method Go(e: L.StartEvent)
      requires L.StartEnabled(Snapshot(), e) && L.Goes(e)
      modifies this`start, this`launches, this`clientWaitGroup
      ensures Snapshot() == L.StartNext(old(Snapshot()), e)
      ensures clientWaitGroup == old(clientWaitGroup) + 1
    {
      var n := start.value.n;
      clientWaitGroup, launches, start :=
        clientWaitGroup + 1, launches[n := L.Going(launches[n], e)], Some(L.Launching(n, L.Gone(e)));
    }

    method StartStderr()
      requires Valid() && L.Enabled(Snapshot(), L.OfStart(L.GoStderr))
      modifies this`start, this`launches, this`clientWaitGroup
      ensures Valid() && Snapshot() == L.Next(old(Snapshot()), L.OfStart(L.GoStderr))
      ensures clientWaitGroup == old(clientWaitGroup) + 1 && launches[old(start.value.n)].stderr.Reading?
    {
      SafeStep(Snapshot(), L.OfStart(L.GoStderr));
      Go(L.GoStderr);
    }

    method StartWaiter()
      requires Valid() && L.Enabled(Snapshot(), L.OfStart(L.GoWaiter))
      modifies this`start, this`launches, this`clientWaitGroup
      ensures Valid() && Snapshot() == L.Next(old(Snapshot()), L.OfStart(L.GoWaiter))
      ensures clientWaitGroup == old(clientWaitGroup) + 1 && launches[old(start.value.n)].waiter.Created?
    {
      SafeStep(Snapshot(), L.OfStart(L.GoWaiter));
      Go(L.GoWaiter);
    }

    method StartStdout()
      requires Valid() && L.Enabled(Snapshot(), L.OfStart(L.GoStdout))
      modifies this`start, this`launches, this`clientWaitGroup
      ensures Valid() && Snapshot() == L.Next(old(Snapshot()), L.OfStart(L.GoStdout))
      ensures clientWaitGroup == old(clientWaitGroup) + 1 && launches[old(start.value.n)].stdout.Reading?
    {
      SafeStep(Snapshot(), L.OfStart(L.GoStdout));
      Go(L.GoStdout);
    }

    method StartAddDrain()
      requires Valid() && L.Enabled(Snapshot(), L.OfStart(L.AddDrain))
      modifies this`start, this`launches, this`clientWaitGroup
      ensures Valid() && Snapshot() == L.Next(old(Snapshot()), L.OfStart(L.AddDrain))
      ensures clientWaitGroup == old(clientWaitGroup) + 1 && launches[old(start.value.n)].drain.Added?
    {
      SafeStep(Snapshot(), L.OfStart(L.AddDrain));
      Go(L.AddDrain);
    }

    method FinishStart()
      requires L.StartEnabled(Snapshot(), L.StartReturn)
      modifies this`start, this`launches, this`address
      ensures Snapshot() == L.StartNext(old(Snapshot()), L.StartReturn)
      ensures start.None? && address == old(start.value.stage.ok)
      ensures var n := old(start.value.n);
              var killed := old(launches[n].killed) || !address;
              launches == old(launches)[n := old(launches[n]).(drain := L.Draining, killed := killed)]
    {
      var n, ok := start.value.n, start.value.stage.ok;
      launches := launches[n := launches[n].(drain := L.Draining, killed := launches[n].killed || !ok)];
      address := ok;
      start := None;
    }

    /** The deferred functions, last first: start the drain, kill the runner on an error, unlock. */
    method StartReturn()
      requires Valid() && L.Enabled(Snapshot(), L.OfStart(L.StartReturn))
      modifies this`start, this`launches, this`address
      ensures Valid() && Snapshot() == L.Next(old(Snapshot()), L.OfStart(L.StartReturn))
      ensures start.None? && address == old(start.value.stage.ok)
      ensures var n := old(start.value.n);
              var killed := old(launches[n].killed) || !address;
              launches == old(launches)[n := old(launches[n]).(drain := L.Draining, killed := killed)]
    {
      SafeStep(Snapshot(), L.OfStart(L.StartReturn));
      FinishStart();
    }

    /** The other steps of Start only move it on, to an error or to the next step. */
    method MoveStart(e: L.StartEvent)
      requires Valid() && L.Enabled(Snapshot(), L.OfStart(e))
      requires e.StartRefused? || e.RunnerStart? || e.SelectTimeout? || e.SelectExited? || e.SelectLine?
      modifies this`start, this`launches
      ensures Valid() && Snapshot() == L.Next(old(Snapshot()), L.OfStart(e))
    {
      SafeStep(Snapshot(), L.OfStart(e));
      match e {
        case StartRefused => start := None;
        case RunnerStart(ok) =>
          var n := start.value.n;
          start := if ok then Some(L.Launching(n, L.RunnerStarted)) else None;
          if ok {
            launches := launches[n := launches[n].(started := true)];
          }
        case SelectTimeout => start := Some(L.Launching(start.value.n, L.Returning(false)));
        case SelectExited => start := Some(L.Launching(start.value.n, L.Returning(false)));
        case SelectLine(ok) => start := Some(L.Launching(start.value.n, L.Returning(ok)));
      }
    }

    method StepStart(e: L.StartEvent)
      requires Valid() && L.Enabled(Snapshot(), L.OfStart(e))
      modifies this
      ensures Valid() && Snapshot() == L.Next(old(Snapshot()), L.OfStart(e))
    {
      match e {
        case StartCall => var goOn := StartEnter();
        case SetRunner(named) => StartSetRunner(named);
        case MakeCtx => StartContext();
        case GoStderr => StartStderr();
        case GoWaiter => StartWaiter();
        case GoStdout => StartStdout();
        case AddDrain => StartAddDrain();
        case StartReturn => StartReturn();
        case _ => MoveStart(e);
      }
    }

    // -------------------------------------------------------------- the goroutines of a launch

    /** A reader's deferred calls: pipesWaitGroup first ... */
    method ReaderEnds(n: nat, isStdout: bool)
      requires Valid() && L.Enabled(Snapshot(), L.OfGo(if isStdout then L.StdoutEnds(n) else L.StderrEnds(n)))
      modifies this`launches, this`pipesWaitGroup
      ensures Valid() && Snapshot() == L.Next(old(Snapshot()), L.OfGo(if isStdout then L.StdoutEnds(n) else L.StderrEnds(n)))
      ensures pipesWaitGroup == old(pipesWaitGroup) - 1
      ensures (if isStdout then launches[n].stdout else launches[n].stderr).PipeDone?
    {
      SafeStep(Snapshot(), L.OfGo(if isStdout then L.StdoutEnds(n) else L.StderrEnds(n)));
      pipesWaitGroup := pipesWaitGroup - 1;
      launches := launches[n := if isStdout then launches[n].(stdout := L.PipeDone) else launches[n].(stderr := L.PipeDone)];
    }

    /** ... and then clientWaitGroup. */
    method ReaderLeaves(n: nat, isStdout: bool)
      requires Valid() && L.Enabled(Snapshot(), L.OfGo(if isStdout then L.StdoutLeaves(n) else L.StderrLeaves(n)))
      modifies this`launches, this`clientWaitGroup
      ensures Valid() && Snapshot() == L.Next(old(Snapshot()), L.OfGo(if isStdout then L.StdoutLeaves(n) else L.StderrLeaves(n)))
      ensures clientWaitGroup == old(clientWaitGroup) - 1
      ensures (if isStdout then launches[n].stdout else launches[n].stderr).Finished?
    {
      SafeStep(Snapshot(), L.OfGo(if isStdout then L.StdoutLeaves(n) else L.StderrLeaves(n)));
      clientWaitGroup := clientWaitGroup - 1;
      launches := launches[n := if isStdout then launches[n].(stdout := L.Finished) else launches[n].(stderr := L.Finished)];
    }

    method DrainEnds(n: nat)
      requires Valid() && L.Enabled(Snapshot(), L.OfGo(L.DrainEnds(n)))
      modifies this`launches, this`clientWaitGroup
      ensures Valid() && Snapshot() == L.Next(old(Snapshot()), L.OfGo(L.DrainEnds(n)))
      ensures clientWaitGroup == old(clientWaitGroup) - 1 && launches[n].drain.Drained?
    {
      SafeStep(Snapshot(), L.OfGo(L.DrainEnds(n)));
      clientWaitGroup := clientWaitGroup - 1;
      launches := launches[n := launches[n].(drain := L.Drained)];
    }

    /** The waiter's first defer evaluates c.ctxCancel when it is reached. */
    method WaiterCaptures(n: nat) returns (ctx: nat)
      requires Valid() && L.Enabled(Snapshot(), L.OfGo(L.WaiterCaptures(n)))
      modifies this`launches
      ensures Valid() && Snapshot() == L.Next(old(Snapshot()), L.OfGo(L.WaiterCaptures(n))) && doneCtx == Some(ctx)
    {
      SafeStep(Snapshot(), L.OfGo(L.WaiterCaptures(n)));
      ctx := doneCtx.value;
      launches := launches[n := launches[n].(waiter := L.Captured(ctx))];
    }

    method WaiterMarksExit(n: nat)
      requires Valid() && L.Enabled(Snapshot(), L.OfGo(L.WaiterMarks(n)))
      modifies this`launches, this`exited
      ensures Valid() && Snapshot() == L.Next(old(Snapshot()), L.OfGo(L.WaiterMarks(n)))
      ensures exited
    {
      SafeStep(Snapshot(), L.OfGo(L.WaiterMarks(n)));
      exited := true;
      launches := launches[n := launches[n].(waiter := L.Marked(launches[n].waiter.ctx))];
    }

    method WaiterLeaves(n: nat)
      requires Valid() && L.Enabled(Snapshot(), L.OfGo(L.WaiterLeaves(n)))
      modifies this`launches, this`clientWaitGroup
      ensures Valid() && Snapshot() == L.Next(old(Snapshot()), L.OfGo(L.WaiterLeaves(n)))
      ensures clientWaitGroup == old(clientWaitGroup) - 1
    {
      SafeStep(Snapshot(), L.OfGo(L.WaiterLeaves(n)));
      clientWaitGroup := clientWaitGroup - 1;
      launches := launches[n := launches[n].(waiter := L.Released(launches[n].waiter.ctx))];
    }

    method WaiterCancels(n: nat)
      requires Valid() && L.Enabled(Snapshot(), L.OfGo(L.WaiterCancels(n)))
      modifies this`launches, this`cancelled
      ensures Valid() && Snapshot() == L.Next(old(Snapshot()), L.OfGo(L.WaiterCancels(n)))
      ensures cancelled == old(cancelled) + {old(launches[n].waiter.ctx)}
    {
      SafeStep(Snapshot(), L.OfGo(L.WaiterCancels(n)));
      var ctx := launches[n].waiter.ctx;
      cancelled := cancelled + {ctx};
      launches := launches[n := launches[n].(waiter := L.Cancelled(ctx))];
    }

    method StepGo(e: L.GoEvent)
      requires Valid() && L.Enabled(Snapshot(), L.OfGo(e))
      modifies this
      ensures Valid() && Snapshot() == L.Next(old(Snapshot()), L.OfGo(e))
    {
      SafeStep(Snapshot(), L.OfGo(e));
      match e {
        case StderrEnds(n) => ReaderEnds(n, false);
        case StderrLeaves(n) => ReaderLeaves(n, false);
        case StdoutEnds(n) => ReaderEnds(n, true);
        case StdoutLeaves(n) => ReaderLeaves(n, true);
        case DrainEnds(n) => DrainEnds(n);
        case WaiterCaptures(n) => var ctx := WaiterCaptures(n);
        case WaiterMarks(n) => WaiterMarksExit(n);
        case WaiterLeaves(n) => WaiterLeaves(n);
        case WaiterCancels(n) => WaiterCancels(n);
        case WaiterPassesPipes(n) => launches := launches[n := launches[n].(waiter := L.PipesPassed(launches[n].waiter.ctx))];
        case WaiterReaps(n) => launches := launches[n := launches[n].(waiter := L.Waited(launches[n].waiter.ctx))];
      }
    }

    // -------------------------------------------------------------- Kill

    /** Kill's look at c.runner: without one it returns and leaves killOnce alone. */
    method KillGate() returns (goOn: bool)
      requires Valid() && L.Enabled(Snapshot(), L.OfKill(L.KillCall))
      modifies this`pendingKills
      ensures Valid() && Snapshot() == L.Next(old(Snapshot()), L.OfKill(L.KillCall))
      ensures goOn == runner.Some?
      ensures pendingKills == if runner.Some? then old(pendingKills) + 1 else old(pendingKills)
    {
      SafeStep(Snapshot(), L.OfKill(L.KillCall));
      goOn := runner.Some?;
      if goOn {
        pendingKills := pendingKills + 1;
      }
    }

    method EnterBody()
      requires L.KillEnabled(Snapshot(), L.OnceEnters)
      modifies this`pendingKills, this`killOnce, this`body, this`killBodyRuns
      ensures Snapshot() == L.KillNext(old(Snapshot()), L.OnceEnters)
      ensures killOnce.Busy? && body.Entered? && killBodyRuns == old(killBodyRuns) + 1 && pendingKills == old(pendingKills) - 1
    {
      killOnce := L.Busy;
      killBodyRuns := killBodyRuns + 1;
      pendingKills := pendingKills - 1;
      body := L.Entered;
    }

    /** killOnce.Do: the first caller runs the body. */
    method KillEnter()
      requires Valid() && L.Enabled(Snapshot(), L.OfKill(L.OnceEnters))
      modifies this`pendingKills, this`killOnce, this`body, this`killBodyRuns
      ensures Valid() && Snapshot() == L.Next(old(Snapshot()), L.OfKill(L.OnceEnters))
      ensures killOnce.Busy? && body.Entered? && killBodyRuns == old(killBodyRuns) + 1 && pendingKills == old(pendingKills) - 1
    {
      SafeStep(Snapshot(), L.OfKill(L.OnceEnters));
      EnterBody();
    }

    /** The body's look at c.runner, and at whether its ID() is empty. */
    method KillRead() returns (goOn: bool)
      requires Valid() && L.Enabled(Snapshot(), L.OfKill(L.BodyReads))
      modifies this`killOnce, this`body
      ensures Valid() && Snapshot() == L.Next(old(Snapshot()), L.OfKill(L.BodyReads))
      ensures goOn <==> body.Stopping?
      ensures if runner.Some? && launches[runner.value].named then body == L.Stopping(runner.value) && killOnce == old(killOnce)
              else body == L.Ended(None) && killOnce.Spent?
    {
      SafeStep(Snapshot(), L.OfKill(L.BodyReads));
      goOn := runner.Some? && launches[runner.value].named;
      if goOn {
        body := L.Stopping(runner.value);
      } else {
        body := L.Ended(None);
        killOnce := L.Spent;
      }
    }

    /** runner.Kill, outside the lock, after a graceful exit was not tried or took too long. */
    method KillForce()
      requires Valid() && L.Enabled(Snapshot(), L.OfKill(L.BodyKills))
      modifies this`launches, this`body
      ensures Valid() && Snapshot() == L.Next(old(Snapshot()), L.OfKill(L.BodyKills))
      ensures launches == old(launches)[old(body.n) := old(launches[body.n]).(killed := true)]
    {
      SafeStep(Snapshot(), L.OfKill(L.BodyKills));
      launches, body := launches[body.n := launches[body.n].(killed := true)], L.Forced(body.n);
    }

    /** The lock region after it. */
    method KillMark()
      requires Valid() && L.Enabled(Snapshot(), L.OfKill(L.BodyMarks))
      modifies this`processKilled, this`body
      ensures Valid() && Snapshot() == L.Next(old(Snapshot()), L.OfKill(L.BodyMarks))
      ensures processKilled && body == L.Stopped(old(body.n))
    {
      SafeStep(Snapshot(), L.OfKill(L.BodyMarks));
      processKilled := true;
      body := L.Stopped(body.n);
    }

    /** The deferred cleanup, after clientWaitGroup.Wait: drop the runner ... */
    method KillClear()
      requires Valid() && L.Enabled(Snapshot(), L.OfKill(L.BodyClears))
      modifies this`runner, this`body
      ensures Valid() && Snapshot() == L.Next(old(Snapshot()), L.OfKill(L.BodyClears))
      ensures runner.None? && body == L.Cleared(old(body.n))
    {
      SafeStep(Snapshot(), L.OfKill(L.BodyClears));
      runner := None;
      body := L.Cleared(body.n);
    }

    /** ... and leave the managed list. */
    method KillForget()
      requires Valid() && L.Enabled(Snapshot(), L.OfKill(L.BodyForgets))
      modifies this`body, this`killOnce, managed
      ensures Valid() && Snapshot() == L.Next(old(Snapshot()), L.OfKill(L.BodyForgets))
      ensures body == L.Ended(Some(old(body.n))) && killOnce.Spent?
      ensures managed.clients == if isManaged then L.Without(old(managed.clients), self) else old(managed.clients)
    {
      SafeStep(Snapshot(), L.OfKill(L.BodyForgets));
      if isManaged {
        managed.Remove(self);
      }
      body := L.Ended(Some(body.n));
      killOnce := L.Spent;
    }

    /** The steps of Kill that only move it on. */
    method MoveKill(e: L.KillEvent)
      requires Valid() && L.Enabled(Snapshot(), L.OfKill(e))
      requires e.OnceReturns? || e.BodyWaits? || e.BodyJoins?
      modifies this`pendingKills, this`body
      ensures Valid() && Snapshot() == L.Next(old(Snapshot()), L.OfKill(e))
    {
      SafeStep(Snapshot(), L.OfKill(e));
      match e {
        case OnceReturns => pendingKills := pendingKills - 1;
        case BodyWaits => body := L.Stopped(body.n);
        case BodyJoins => body := L.Joined(body.n);
      }
    }

    /** Other clients join the list and leave it. */
    method MoveOthers(c: L.Client, joins: bool)
      requires Valid() && L.Enabled(Snapshot(), L.OfKill(if joins then L.OtherJoins(c) else L.OtherLeaves(c)))
      modifies managed
      ensures Valid() && Snapshot() == L.Next(old(Snapshot()), L.OfKill(if joins then L.OtherJoins(c) else L.OtherLeaves(c)))
    {
      SafeStep(Snapshot(), L.OfKill(if joins then L.OtherJoins(c) else L.OtherLeaves(c)));
      if joins {
        managed.clients := managed.clients + [c];
      } else {
        managed.Remove(c);
      }
    }

    method StepKill(e: L.KillEvent)
      requires Valid() && L.Enabled(Snapshot(), L.OfKill(e))
      modifies this, managed
      ensures Valid() && Snapshot() == L.Next(old(Snapshot()), L.OfKill(e))
    {
      match e {
        case KillCall => var goOn := KillGate();
        case OnceEnters => KillEnter();
        case BodyReads => var goOn := KillRead();
        case BodyKills => KillForce();
        case BodyMarks => KillMark();
        case BodyClears => KillClear();
        case BodyForgets => KillForget();
        case OtherJoins(c) => MoveOthers(c, true);
        case OtherLeaves(c) => MoveOthers(c, false);
        case _ => MoveKill(e);
      }
    }

    // -------------------------------------------------------------- any interleaving

    method Step(e: L.Event)
      requires Valid() && L.Enabled(Snapshot(), e)
      modifies this, managed
      ensures Valid() && Snapshot() == L.Next(old(Snapshot()), e)
    {
      match e {
        case OfStart(e) => StepStart(e);
        case OfGo(g) => StepGo(g);
        case OfKill(k) => StepKill(k);
      }
    }

    /** The object, driven through any interleaving from a valid state: the arm for an exited plugin is
        never ready, the body of kill runs at most once, contexts are cancelled in order, and when the body
        has cleaned up its launch is over, its runner gone and the client off the list. */
    method Drive(es: seq<L.Event>)
      requires Valid() && L.Runs(Snapshot(), es)
      modifies this, managed
      ensures Valid() && Snapshot() == L.After(old(Snapshot()), es)
      ensures !L.Enabled(Snapshot(), L.OfStart(L.SelectExited))
      ensures killBodyRuns <= 1
      ensures forall k: nat :: k in cancelled ==> CancelledInOrder(Snapshot(), k)
      ensures CleanedUp(Snapshot())
    {
      for i := 0 to |es|
        invariant Valid() && L.Runs(Snapshot(), es[i..])
        invariant L.After(Snapshot(), es[i..]) == L.After(old(Snapshot()), es)
      {
        assert es[i..][0] == es[i] && es[i..][1..] == es[i + 1..];
        Step(es[i]);
      }
      Promises(Snapshot());
    }
  }
}
