/**
 * How a run of the server comes to its end: what each phase of `Run` has behind it, what sets the
 * shutdown off, and that it can always be brought to its end, with every goroutine of every connection.
 */
module SshShutdown {
  import opened Common
  import opened SessionManager
  import opened SshServer
  import opened SshServerProofs
  import opened SshConnections

  // ----- the phases -----

  /** `Run` has closed the listener and is not back at its caller yet. */
  predicate PastListener(run: RunPc) {
    run.JoinAccept? || PastJoin(run)
  }

  /** `Run` has seen the accept loop end. */
  predicate PastJoin(run: RunPc) {
    run.LockSessions? || run.Announcing? || run.Grace? || run.Closing? || run.WaitGroup? || run.Reset?
  }

  predicate PhasesOk(s: Server) {
    && (s.run.ToRun? || s.run.Select? || s.run.CloseListener? ==> s.fields.listener == OpenSocket)
    && (PastListener(s.run) ==> s.fields.listener == ClosedSocket)
    && (PastJoin(s.run) ==> s.accept == Returned)
    && (s.run.Select? || s.run.CloseListener? || s.run.JoinAccept? ==> s.accept != NotStarted)
  }

  lemma StepKeepsPhases(s: Server, step: Step)
    requires Inv(s) && PhasesOk(s)
    ensures PhasesOk(Apply(s, step))
  {
    match step
    case ByConn(c, k) => StepKeepsInv(s, step);
    case ByRun(r) => RunKeepsPhases(s, r);
    case _ =>
  }

  lemma RunKeepsPhases(s: Server, step: RunStep)
    requires PhasesOk(s) && FieldsOk(s)
    ensures PhasesOk(ApplyRun(s, step))
  {
  }

  predicate Good(s: Server) {
    Inv(s) && PhasesOk(s) && AllOnceOk(s)
  }

  lemma StepKeepsGood(s: Server, step: Step)
    requires Good(s)
    ensures Good(Apply(s, step))
  {
    StepKeepsInv(s, step);
    StepKeepsPhases(s, step);
    StepKeepsOnceOk(s, step);
  }

  lemma GoodReached(steps: seq<Step>)
    ensures Good(Exec(INIT, steps))
  {
    forall t, e | Good(t)
      ensures Good(Apply(t, e))
    {
      StepKeepsGood(t, e);
    }
    RunInvariant(Apply, Good, INIT, steps);
  }

  /**
   * In every run: the listener is open until `Run` has closed it and closed from then on; the accept loop
   * is over before the session lock is taken.
   */
  lemma PhasesInOrder(steps: seq<Step>)
    ensures var s := Exec(INIT, steps);
      && (s.fields.listener == NoSocket <==> s.run == NotRunning)
      && (s.fields.listener == ClosedSocket <==> s.run != NotRunning && PastListener(s.run))
      && (PastJoin(s.run) ==> s.accept == Returned)
  {
    GoodReached(steps);
  }

  // ----- what sets the shutdown off -----

  predicate TimerFires(steps: seq<Step>, i: nat, runNo: nat)
    requires i < |steps|
  {
    var s := StateAt(steps, i);
    steps[i] == ByRun(SeeTimer) && s.run == Select && s.runs == runNo && s.crash == NoCrash
  }

  predicate ShuttingDown(run: RunPc) {
    run.CloseListener? || PastListener(run)
  }

  lemma ShutdownStarts(s: Server, step: Step)
    requires !ShuttingDown(s.run) && ShuttingDown(Apply(s, step).run)
    ensures s.run == Select && s.crash == NoCrash && Apply(s, step).runs == s.runs
    ensures step == ByRun(SeeTimer) || s.fields.shutdown == ClosedSignal
  {
    RunOnlyByRun(s, step);
  }

  /** Only `Run` itself moves past its select. */
  lemma RunOnlyByRun(s: Server, step: Step)
    ensures var s' := Apply(s, step);
      step.ByRun? || s'.run == s.run || s'.run == ToRun || s'.run == Select
  {
    match step
    case ByConn(c, k) =>
      if c in s.conns {
        ConnLeavesRun(s, k, c);
      }
    case _ =>
  }

  lemma ConnLeavesRun(s: Server, step: ConnStep, c: ConnId)
    requires c in s.conns
    ensures ApplyConn(s, step, c, s.conns[c]).run == s.run
  {
  }

  lemma ShutdownGoesOn(s: Server, step: Step)
    requires Inv(s) && ShuttingDown(s.run) && ShuttingDown(Apply(s, step).run)
    ensures Apply(s, step).runs == s.runs
  {
    StepKeepsInv(s, step);
  }

  /** A server shuts down only if its 12 hour timer fires or it is told to stop, in this very run. */
  lemma {:induction false} ShutdownHasCause(steps: seq<Step>, n: nat)
    requires n <= |steps| && ShuttingDown(StateAt(steps, n).run)
    ensures exists i: nat ::
      i < n && (TimerFires(steps, i, StateAt(steps, n).runs) || StopsRun(steps, i, StateAt(steps, n).runs))
    decreases n
  {
    assert StateAt(steps, 0) == INIT;
    AtNext(Apply, INIT, steps, n - 1);
    var s := StateAt(steps, n - 1);
    if ShuttingDown(s.run) {
      Reachable(steps[..n - 1]);
      ShutdownGoesOn(s, steps[n - 1]);
      ShutdownHasCause(steps, n - 1);
    } else {
      ShutdownStarts(s, steps[n - 1]);
      if s.fields.shutdown == ClosedSignal {
        ClosedMeansStopped(steps, n - 1);
      } else {
        assert TimerFires(steps, n - 1, s.runs);
      }
    }
  }

  // ----- it can always be brought to its end -----

  /** Nobody stops the server, and the timer fires only if `timer`. */
  predicate Unaided(steps: seq<Step>, timer: bool) {
    ByCaller(Stop) !in steps && (timer || ByRun(SeeTimer) !in steps)
  }

  predicate Ended(k: Conn) {
    && (k.handler == RejectedExit || (k.handler == Exited && k.once == Finished))
    && forall i :: 0 <= i < |k.waiters| ==> k.waiters[i] == WaiterExited
  }

  predicate AllEnded(conns: map<ConnId, Conn>) {
    forall c :: c in conns ==> Ended(conns[c])
  }

  ghost predicate CanGo(s: Server, s': Server, timer: bool) {
    exists steps :: Unaided(steps, timer) && Exec(s, steps) == s'
  }

  lemma GoOn(s: Server, step: Step, s': Server, timer: bool)
    requires CanGo(Apply(s, step), s', timer) && Unaided([step], timer)
    ensures CanGo(s, s', timer)
  {
    var steps :| Unaided(steps, timer) && Exec(Apply(s, step), steps) == s';
    assert ([step] + steps)[1..] == steps;
    assert Exec(s, [step] + steps) == s';
    assert forall x :: x in [step] + steps ==> x == step || x in steps;
    assert step in [step];
    assert Unaided([step] + steps, timer);
  }

  lemma StayThere(s: Server, timer: bool)
    ensures CanGo(s, s, timer)
  {
    assert Exec(s, []) == s;
  }

  lemma GoFurther(s: Server, t: Server, u: Server, timer: bool)
    requires CanGo(s, t, timer) && CanGo(t, u, timer)
    ensures CanGo(s, u, timer)
  {
    var xs :| Unaided(xs, timer) && Exec(s, xs) == t;
    var ys :| Unaided(ys, timer) && Exec(t, ys) == u;
    RunAppend(Apply, s, xs, ys);
    assert forall x :: x in xs + ys ==> x in xs || x in ys;
    assert Unaided(xs + ys, timer);
  }

  ghost predicate Reached(s: Server) {
    exists steps :: Exec(INIT, steps) == s
  }

  lemma ReachedFurther(s: Server, s': Server, timer: bool)
    requires Reached(s) && CanGo(s, s', timer)
    ensures Reached(s')
  {
    var xs :| Exec(INIT, xs) == s;
    var ys :| Unaided(ys, timer) && Exec(s, ys) == s';
    RunAppend(Apply, INIT, xs, ys);
    assert Exec(INIT, xs + ys) == s';
  }

  lemma ReachedNext(s: Server, step: Step)
    requires Reached(s)
    ensures Reached(Apply(s, step))
  {
    var xs :| Exec(INIT, xs) == s;
    RunAppend(Apply, INIT, xs, [step]);
    RunOne(Apply, s, step);
    assert Exec(INIT, xs + [step]) == Apply(s, step);
  }

  // A connection's goroutines, one step after the other.

  function HandlerWork(h: HandlerPc): nat {
    match h
    case ReadConfig => 7
    case Handshake => 6
    case AddSession => 5
    case Serving => 4
    case AtOnce => 3
    case Rejected => 1
    case RejectedExit => 0
    case Exited => 0
  }

  function OnceWork(o: Once): nat {
    match o
    case Fresh => 4
    case Running(AtRemove) => 3
    case Running(AtDone) => 2
    case Running(AtReturn) => 1
    case Finished => 0
  }

  function WaiterWork(w: WaiterPc): nat {
    match w
    case Waiting => 2
    case WaiterAtOnce => 1
    case WaiterExited => 0
  }

  function WaitersWork(ws: seq<WaiterPc>): nat {
    if ws == [] then 0 else WaitersWork(ws[..|ws| - 1]) + WaiterWork(ws[|ws| - 1])
  }

  function Work(k: Conn): nat {
    HandlerWork(k.handler) + OnceWork(k.once) + WaitersWork(k.waiters)
  }

  lemma {:induction false} WaitersWorkLess(ws: seq<WaiterPc>, i: nat, w: WaiterPc)
    requires i < |ws|
    requires (ws[i] == Waiting && w != Waiting) || (ws[i] == WaiterAtOnce && w == WaiterExited)
    ensures WaitersWork(ws[i := w]) < WaitersWork(ws)
    decreases |ws|
  {
    var front := ws[..|ws| - 1];
    if i == |ws| - 1 {
      assert ws[i := w][..|ws| - 1] == front;
    } else {
      assert ws[i := w][..|ws| - 1] == front[i := w];
      WaitersWorkLess(front, i, w);
    }
  }

  /** What a connection's next step needs to find. */
  lemma ConnFindsIt(s: Server, c: ConnId)
    requires Reached(s) && c in s.conns
    ensures ConnOk(s.conns[c]) && OnceOk(s.conns[c])
    ensures s.conns[c].dones == 0 ==> s.wg > 0 && s.fields.config.Some?
  {
    var steps :| Exec(INIT, steps) == s;
    GoodReached(steps);
    if s.conns[c].dones == 0 {
      TicketMakesWaitGroupPositive(s, c);
    }
  }

  /** The next step of a connection that has not ended. */
  lemma NextConnStep(s: Server, c: ConnId) returns (step: ConnStep)
    requires c in s.conns && ConnOk(s.conns[c]) && OnceOk(s.conns[c]) && !s.locked && !Ended(s.conns[c])
    requires s.conns[c].dones == 0 ==> s.wg > 0 && s.fields.config.Some?
    ensures var s' := ApplyConn(s, step, c, s.conns[c]); c in s'.conns && Work(s'.conns[c]) < Work(s.conns[c])
  {
    var k := s.conns[c];
    if k.once.Running? {
      step := Cleanup;
    } else if k.handler == RejectedExit || k.handler == Exited {
      step := NextWaiterStep(s, c);
    } else {
      step := NextHandlerStep(s, c);
    }
  }

  lemma NextHandlerStep(s: Server, c: ConnId) returns (step: ConnStep)
    requires c in s.conns && ConnOk(s.conns[c]) && !s.locked
    requires s.conns[c].dones == 0 ==> s.wg > 0 && s.fields.config.Some?
    requires !s.conns[c].once.Running? && s.conns[c].handler != RejectedExit && s.conns[c].handler != Exited
    ensures var s' := ApplyConn(s, step, c, s.conns[c]); c in s'.conns && Work(s'.conns[c]) < Work(s.conns[c])
  {
    var k := s.conns[c];
    step := match k.handler
      case ReadConfig => DoReadConfig
      case Handshake => HandshakeFailed
      case Rejected => RejectDone
      case AddSession => DoAdd
      case Serving => EndServing
      case _ => if k.once == Fresh then EnterOnce(Handler) else LeaveOnce(Handler);
  }

  lemma NextWaiterStep(s: Server, c: ConnId) returns (step: ConnStep)
    requires c in s.conns && ConnOk(s.conns[c]) && OnceOk(s.conns[c]) && !Ended(s.conns[c])
    requires s.conns[c].handler == RejectedExit || s.conns[c].handler == Exited
    ensures var s' := ApplyConn(s, step, c, s.conns[c]); c in s'.conns && Work(s'.conns[c]) < Work(s.conns[c])
  {
    var k := s.conns[c];
    var i :| 0 <= i < |k.waiters| && k.waiters[i] != WaiterExited;
    if k.waiters[i] == Waiting {
      step := CommandExits(i);
      WaitersWorkLess(k.waiters, i, WaiterAtOnce);
    } else {
      step := LeaveOnce(Waiter(i));
      WaitersWorkLess(k.waiters, i, WaiterExited);
    }
  }

  /** `Run` is where it was, and of the connections only `c` has moved. */
  predicate OnlyConn(s: Server, s': Server, c: ConnId)
    requires c in s.conns
  {
    && s'.crash == NoCrash && s'.run == s.run && s'.locked == s.locked && s'.fields == s.fields
    && c in s'.conns && s'.conns == s.conns[c := s'.conns[c]]
  }

  lemma {:induction false} EndConn(s: Server, c: ConnId) returns (s': Server)
    requires Reached(s) && s.crash == NoCrash && !s.locked && c in s.conns
    ensures CanGo(s, s', false) && OnlyConn(s, s', c) && Ended(s'.conns[c])
    decreases Work(s.conns[c])
  {
    if Ended(s.conns[c]) {
      s' := s;
      StayThere(s, false);
      assert s.conns == s.conns[c := s.conns[c]];
    } else {
      ConnFindsIt(s, c);
      var step := NextConnStep(s, c);
      var t := Apply(s, ByConn(c, step));
      ConnStepGoesOn(s, step, c);
      ReachedNext(s, ByConn(c, step));
      s' := EndConn(t, c);
      GoOn(s, ByConn(c, step), s', false);
      assert t.conns[c := s'.conns[c]] == s.conns[c := s'.conns[c]];
    }
  }

  lemma ConnStepGoesOn(s: Server, step: ConnStep, c: ConnId)
    requires Reached(s) && s.crash == NoCrash && !s.locked && c in s.conns
    ensures Apply(s, ByConn(c, step)) == ApplyConn(s, step, c, s.conns[c])
    ensures OnlyConn(s, Apply(s, ByConn(c, step)), c)
  {
    var steps :| Exec(INIT, steps) == s;
    Reachable(steps);
    ConnStepKeepsInv(s, step, c);
  }

  function Unended(conns: map<ConnId, Conn>): set<ConnId> {
    set c | c in conns && !Ended(conns[c])
  }

  lemma {:induction false} EndAll(s: Server) returns (s': Server)
    requires Reached(s) && s.crash == NoCrash && !s.locked
    ensures CanGo(s, s', false) && s'.crash == NoCrash && s'.run == s.run && s'.fields == s.fields && AllEnded(s'.conns)
    decreases |Unended(s.conns)|
  {
    if Unended(s.conns) == {} {
      assert forall c :: c in s.conns && !Ended(s.conns[c]) ==> c in Unended(s.conns);
      s' := s;
      StayThere(s, false);
    } else {
      var c :| c in Unended(s.conns);
      var t := EndConn(s, c);
      OneUnendedLess(s.conns, c, t.conns[c]);
      ReachedFurther(s, t, false);
      s' := EndAll(t);
      GoFurther(s, t, s', false);
    }
  }

  lemma OneUnendedLess(conns: map<ConnId, Conn>, c: ConnId, k: Conn)
    requires c in Unended(conns) && Ended(k)
    ensures |Unended(conns[c := k])| < |Unended(conns)|
  {
    assert Unended(conns[c := k]) == Unended(conns) - {c};
  }

  lemma EndedHasNoTicket(s: Server)
    requires Reached(s) && AllEnded(s.conns)
    ensures s.wg == 0
  {
    var steps :| Exec(INIT, steps) == s;
    Reachable(steps);
    assert Outstanding(s.conns) == {};
  }

  // `Run`, one step after the other.

  function RunWork(run: RunPc): nat {
    match run
    case ToRun => 10
    case Select => 9
    case CloseListener => 8
    case JoinAccept => 7
    case LockSessions => 6
    case Announcing(_) => 5
    case Grace => 4
    case Closing(_) => 3
    case WaitGroup => 2
    case Reset => 1
    case NotRunning => 0
  }

  function AcceptWork(accept: AcceptPc): nat {
    match accept
    case NotStarted => 3
    case AtAccept => 2
    case InAccept => 1
    case Returned => 0
  }

  function TodoWork(run: RunPc): nat {
    match run
    case Announcing(todo) => |todo|
    case Closing(todo) => |todo|
    case _ => 0
  }

  /** What the next step of `Run` needs to find. */
  predicate RunFinds(s: Server) {
    && (s.run.JoinAccept? ==> s.accept != NotStarted && s.fields.listener != NoSocket)
    && (s.run.LockSessions? ==> !s.locked)
    && (s.run.Announcing? || s.run.Closing? ==> s.run.todo <= s.table.Keys)
  }

  lemma RunFindsIt(s: Server)
    requires Reached(s)
    ensures RunFinds(s)
  {
    var steps :| Exec(INIT, steps) == s;
    GoodReached(steps);
  }

  /** One step nearer to the end: a later phase, or the same with less to do or a further accept loop. */
  predicate Nearer(s: Server, s': Server) {
    && s'.conns == s.conns && s'.crash == NoCrash
    && (RunWork(s'.run) < RunWork(s.run)
        || (RunWork(s'.run) == RunWork(s.run)
            && TodoWork(s'.run) + AcceptWork(s'.accept) < TodoWork(s.run) + AcceptWork(s.accept)))
  }

  /** The signal is there, or may come by the timer, or is not needed any more. */
  predicate Signalled(s: Server, timer: bool) {
    timer || s.fields.shutdown == ClosedSignal || ShuttingDown(s.run) || s.run == NotRunning
  }

  lemma NextJoinStep(s: Server) returns (step: AcceptStep)
    requires s.crash == NoCrash && s.run == JoinAccept && s.accept != NotStarted && s.accept != Returned
    requires s.fields.listener != NoSocket
    ensures Nearer(s, ApplyAccept(s, step)) && ApplyAccept(s, step).run == s.run
  {
    step := if s.accept == AtAccept then CallAccept else AcceptError;
  }

  lemma NextTodoStep(s: Server) returns (step: RunStep)
    requires s.crash == NoCrash && (s.run.Announcing? || s.run.Closing?) && s.run.todo <= s.table.Keys
    ensures step != SeeTimer
    ensures Nearer(s, ApplyRun(s, step)) && ShuttingDown(ApplyRun(s, step).run)
  {
    if s.run.todo == {} {
      step := if s.run.Announcing? then EndAnnounce else EndClose;
      TodoEnds(s);
    } else {
      var a :| a in s.run.todo;
      step := if s.run.Announcing? then Announce(a) else CloseConn(a);
      OneTodoLess(s, a);
    }
  }

  lemma TodoEnds(s: Server)
    requires s.crash == NoCrash && (s.run == Announcing({}) || s.run == Closing({}))
    ensures var s' := ApplyRun(s, if s.run.Announcing? then EndAnnounce else EndClose);
      Nearer(s, s') && (s'.run == Grace || s'.run == WaitGroup)
  {
  }

  lemma OneTodoLess(s: Server, a: Addr)
    requires s.crash == NoCrash && (s.run.Announcing? || s.run.Closing?) && a in s.run.todo && a in s.table
    ensures var s' := ApplyRun(s, if s.run.Announcing? then Announce(a) else CloseConn(a));
      Nearer(s, s') && s'.run == if s.run.Announcing? then Announcing(s.run.todo - {a}) else Closing(s.run.todo - {a})
  {
    assert |s.run.todo - {a}| < |s.run.todo|;
  }

  lemma NextPlainStep(s: Server, timer: bool) returns (step: RunStep)
    requires s.crash == NoCrash && Signalled(s, timer) && (s.run.LockSessions? ==> !s.locked)
    requires s.run.Select? || s.run.CloseListener? || s.run.LockSessions? || s.run.Grace? || s.run.Reset?
    ensures step == SeeTimer ==> timer
    ensures Nearer(s, ApplyRun(s, step)) && Signalled(ApplyRun(s, step), timer)
  {
    step := match s.run
      case Select => if s.fields.shutdown == ClosedSignal then SeeShutdown else SeeTimer
      case CloseListener => DoCloseListener
      case LockSessions => DoLockSessions
      case Grace => EndGrace
      case _ => DoReset;
  }

  /** The next step of `Run`, or of the accept loop it waits for, and the state after it. */
  lemma NextRunStep(s: Server, timer: bool) returns (step: Step, t: Server)
    requires RunFinds(s) && s.crash == NoCrash && Signalled(s, timer)
    requires s.run != NotRunning && s.run != WaitGroup && s.run != Reset
    ensures Unaided([step], timer) && t == Apply(s, step)
    ensures Nearer(s, t) && Signalled(t, timer) && t.run != NotRunning && t.run != Reset
  {
    if s.run == ToRun {
      step := ByCaller(StartRun);
    } else if s.run == JoinAccept {
      if s.accept == Returned {
        step := ByRun(DoJoinAccept);
      } else {
        var a := NextJoinStep(s);
        step := ByAccept(a);
      }
    } else if s.run.Announcing? || s.run.Closing? {
      var r := NextTodoStep(s);
      step := ByRun(r);
    } else {
      var r := NextPlainStep(s, timer);
      step := ByRun(r);
    }
    t := Apply(s, step);
  }

  predicate AtEnd(s: Server) {
    s.crash == NoCrash && s.run == NotRunning && AllEnded(s.conns)
  }

  lemma {:induction false} RunEnds(s: Server, timer: bool) returns (s': Server)
    requires Reached(s) && s.crash == NoCrash && Signalled(s, timer)
    ensures CanGo(s, s', timer) && AtEnd(s')
    decreases RunWork(s.run), TodoWork(s.run) + AcceptWork(s.accept)
  {
    if s.run == WaitGroup || s.run == Reset || s.run == NotRunning {
      s' := WaitEnds(s);
      var steps :| Unaided(steps, false) && Exec(s, steps) == s';
      assert Unaided(steps, timer);
    } else {
      RunFindsIt(s);
      var step, t := NextRunStep(s, timer);
      ReachedNext(s, step);
      s' := RunEnds(t, timer);
      GoOn(s, step, s', timer);
    }
  }

  lemma NotLocked(s: Server)
    requires Reached(s) && (s.run == WaitGroup || s.run == Reset || s.run == NotRunning)
    ensures !s.locked
  {
    var steps :| Exec(INIT, steps) == s;
    Reachable(steps);
  }

  lemma WaitEnds(s: Server) returns (s': Server)
    requires Reached(s) && s.crash == NoCrash && (s.run == WaitGroup || s.run == Reset || s.run == NotRunning)
    ensures CanGo(s, s', false) && AtEnd(s')
  {
    NotLocked(s);
    var t := EndAll(s);
    ReachedFurther(s, t, false);
    EndedHasNoTicket(t);
    s' := if s.run == NotRunning then t else t.(fields := STOPPED, run := NotRunning);
    WaitAndReset(t);
    GoFurther(s, t, s', false);
  }

  lemma WaitAndReset(t: Server)
    requires t.crash == NoCrash && t.wg == 0
    ensures t.run == WaitGroup || t.run == Reset ==> CanGo(t, t.(fields := STOPPED, run := NotRunning), false)
    ensures CanGo(t, t, false)
  {
    StayThere(t, false);
    StayThere(t.(fields := STOPPED, run := NotRunning), false);
    if t.run == WaitGroup || t.run == Reset {
      GoOn(t.(run := Reset), ByRun(DoReset), t.(fields := STOPPED, run := NotRunning), false);
    }
    if t.run == WaitGroup {
      GoOn(t, ByRun(DoWait), t.(fields := STOPPED, run := NotRunning), false);
    }
  }

  /**
   * Nothing gets stuck. From every state of every run that has not panicked, once the server is told to
   * stop or its timer fires, there is a way for `Run` to return, and for every goroutine of every
   * connection to end, with no further help from outside: the timer is not needed if the stop signal is
   * there. Then the server is as at the start, but for the connections it has seen.
   */
  lemma RunCanReturn(steps: seq<Step>, timer: bool)
    requires Exec(INIT, steps).crash == NoCrash
    requires var s := Exec(INIT, steps);
      timer || s.fields.shutdown == ClosedSignal || ShuttingDown(s.run) || s.run == NotRunning
    ensures exists more :: var s' := Exec(Exec(INIT, steps), more);
      && ByCaller(Stop) !in more && (timer || ByRun(SeeTimer) !in more)
      && s'.run == NotRunning && s'.crash == NoCrash && AllEnded(s'.conns)
      && s'.fields == STOPPED && s'.wg == 0 && s'.table == map[] && !s'.locked
  {
    var s := Exec(INIT, steps);
    assert Reached(s);
    var s' := RunEnds(s, timer);
    ReachedFurther(s, s', timer);
    EndIsClean(s');
    var more :| Unaided(more, timer) && Exec(s, more) == s';
  }

  lemma EndIsClean(s: Server)
    requires Reached(s) && s.run == NotRunning
    ensures s.fields == STOPPED && s.wg == 0 && s.table == map[] && !s.locked
  {
    var steps :| Exec(INIT, steps) == s;
    Reachable(steps);
    QuietMeansEmpty(s);
  }

  /** Goroutines left over from a run that is over can end too, or in any state in which no broadcast is on. */
  lemma GoroutinesCanEnd(steps: seq<Step>)
    requires Exec(INIT, steps).crash == NoCrash && !Exec(INIT, steps).locked
    ensures exists more :: var s' := Exec(Exec(INIT, steps), more);
      AllEnded(s'.conns) && s'.run == Exec(INIT, steps).run && Unaided(more, false)
  {
    var s := Exec(INIT, steps);
    assert Reached(s);
    var s' := EndAll(s);
    var more :| Unaided(more, false) && Exec(s, more) == s';
  }

  // ----- a handler outlives its run -----

  const SERVED := ACCEPTED.(conns := map[0 := NEXT_CONN], table := map[PEER := Session(0, None)])
  /** It has opened channel 7 and runs a PTY on it. */
  const WITH_PTY := NEXT_CONN.(channel := Some(7), waiters := [Waiting])
  const RUNS_PTY := SERVED.(conns := map[0 := WITH_PTY], table := map[PEER := Session(0, Some(7))])
  /** The PTY's command has exited, and its waiter is in the Once. */
  const CLEANING := WITH_PTY.(waiters := [WaiterAtOnce], once := Running(AtRemove))
  const CLEANED := CLEANING.(once := Finished, dones := 1)
  const ALL_CLEANED := ACCEPTED.(wg := 0, conns := map[0 := CLEANED])

  lemma ReachServed()
    ensures Reaches(Apply, INIT, SERVED)
  {
    ReachAccepted();
    var s := ACCEPTED.(conns := map[0 := PEER_CONN.(handler := AddSession)]);
    ReachStep(ACCEPTED, ByConn(0, HandshakeOk), s);
    ReachStep(s, ByConn(0, DoAdd), SERVED);
  }

  lemma ReachRunsPty()
    ensures Reaches(Apply, INIT, RUNS_PTY)
  {
    ReachServed();
    var s := RUNS_PTY.(conns := map[0 := NEXT_CONN.(channel := Some(7))]);
    ReachStep(SERVED, ByConn(0, OpenChannel(7)), s);
    assert [] + [Waiting] == [Waiting];
    ReachStep(s, ByConn(0, StartPty), RUNS_PTY);
  }

  lemma ReachCleaning()
    ensures Reaches(Apply, INIT, RUNS_PTY.(conns := map[0 := CLEANING]))
  {
    ReachRunsPty();
    var s := RUNS_PTY.(conns := map[0 := WITH_PTY.(waiters := [WaiterAtOnce])]);
    assert [Waiting][0 := WaiterAtOnce] == [WaiterAtOnce];
    ReachStep(RUNS_PTY, ByConn(0, CommandExits(0)), s);
    ReachStep(s, ByConn(0, EnterOnce(Waiter(0))), RUNS_PTY.(conns := map[0 := CLEANING]));
  }

  lemma ReachAllCleaned()
    ensures Reaches(Apply, INIT, ALL_CLEANED)
  {
    ReachCleaning();
    var s1 := ACCEPTED.(conns := map[0 := CLEANING.(once := Running(AtDone))]);
    assert WithoutSession(RUNS_PTY.table, PEER) == map[];
    ReachStep(RUNS_PTY.(conns := map[0 := CLEANING]), ByConn(0, Cleanup), s1);
    var s2 := ALL_CLEANED.(conns := map[0 := CLEANED.(once := Running(AtReturn))]);
    ReachStep(s1, ByConn(0, Cleanup), s2);
    ReachStep(s2, ByConn(0, Cleanup), ALL_CLEANED);
  }

  /**
   * The WaitGroup counts connections not cleaned up, not handlers that live: here a PTY's command exits,
   * its waiter cleans up, and `Run` returns while the handler still serves the connection.
   */
  lemma RunReturnsWhileHandlerServes()
    ensures exists steps :: var s := Exec(INIT, steps);
      && s.run == NotRunning && s.crash == NoCrash && s.runs == 1
      && 0 in s.conns && s.conns[0].handler == Serving && s.conns[0].dones == 1
  {
    ReachAllCleaned();
    ReachWait(ALL_CLEANED);
    var s := ToWait(ALL_CLEANED);
    ReachStep(s, ByRun(DoWait), s.(run := Reset));
    var t := s.(fields := STOPPED, run := NotRunning);
    ReachStep(s.(run := Reset), ByRun(DoReset), t);
    var steps :| Run(Apply, INIT, steps) == t;
    assert Exec(INIT, steps) == t;
  }
}
