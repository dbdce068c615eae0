/** What every run of the SSH server machine keeps, and what follows from it. */
module SshServerProofs {
  import opened Common
  import opened SessionManager
  import opened SshServer

  // ----- the inductive invariant -----

  /** The WaitGroup tickets not yet given back. */
  function Outstanding(conns: map<ConnId, Conn>): set<ConnId> {
    set c | c in conns && conns[c].dones == 0
  }

  predicate Started(h: HandlerPc) {
    h.Serving? || h.AtOnce? || h.Exited?
  }

  /** The handler has put its session in the table, and the cleanup has not yet taken it out. */
  predicate Listed(k: Conn) {
    Started(k.handler) && (k.once == Fresh || k.once == Running(AtRemove))
  }

  /** The ticket is given back by the rejected handshake or by the one cleanup, whichever the connection reaches. */
  predicate ConnOk(k: Conn) {
    && (!Started(k.handler) ==> k.once == Fresh && k.waiters == [] && k.channel.None?
                                && k.dones == if k.handler.RejectedExit? then 1 else 0)
    && (Started(k.handler) ==> k.dones == if k.once == Finished || k.once == Running(AtReturn) then 1 else 0)
  }

  /** Some handler may still hold a ticket: `Run` is between its first statement and the end of `wg.Wait`. */
  predicate TicketsAllowed(run: RunPc) {
    !run.NotRunning? && !run.ToRun? && !run.Reset?
  }

  predicate FieldsOk(s: Server) {
    && s.fields.isRunning == (s.run != NotRunning)
    && s.fields.config == (if s.fields.isRunning then Some(s.runs) else None)
    && (s.fields.listener != NoSocket <==> s.fields.isRunning)
    && (s.fields.shutdown != NoSignal <==> s.fields.isRunning)
    && (s.accept.AtAccept? || s.accept.InAccept? ==> s.run.Select? || s.run.CloseListener? || s.run.JoinAccept?)
    && (s.locked <==> s.run.Announcing? || s.run.Grace? || s.run.Closing?)
  }

  predicate ConnsOk(s: Server) {
    forall c :: c in s.conns ==>
      && ConnOk(s.conns[c])
      && s.conns[c].run <= s.runs
      && (s.conns[c].dones == 0 ==> s.conns[c].run == s.runs && TicketsAllowed(s.run))
  }

  predicate TableOk(s: Server) {
    forall a :: a in s.table ==>
      && s.table[a].conn in s.conns
      && s.conns[s.table[a].conn].addr == a
      && Listed(s.conns[s.table[a].conn])
  }

  predicate BroadcastOk(s: Server) {
    var b := s.broadcast;
    && (s.locked ==> s.table == b.snapshot)
    && (s.run.Announcing? ==> b.closed == map[] && s.run.todo <= b.snapshot.Keys
                              && b.announced == Announcements(b.snapshot) - s.run.todo)
    && (s.run.Grace? ==> b.closed == map[] && b.announced == Announcements(b.snapshot))
    && (s.run.Closing? ==> s.run.todo <= b.snapshot.Keys && b.closed == Closings(b.snapshot) - s.run.todo
                           && b.announced == Announcements(b.snapshot))
    && (s.run.WaitGroup? || s.run.Reset? ==>
          b.closed == Closings(b.snapshot) && b.announced == Announcements(b.snapshot))
  }

  predicate Inv(s: Server) {
    && (s.crash == NoCrash || s.crash == ClosedTwice)
    && s.wg == |Outstanding(s.conns)|
    && FieldsOk(s)
    && ConnsOk(s)
    && TableOk(s)
    && BroadcastOk(s)
  }

  // ----- how a step moves the tickets -----

  lemma OutstandingPut(conns: map<ConnId, Conn>, c: ConnId, k: Conn)
    ensures var before, after := Outstanding(conns), Outstanding(conns[c := k]);
      if k.dones == 0 && c !in before then |after| == |before| + 1
      else if k.dones != 0 && c in before then |after| == |before| - 1
      else after == before
  {
    var before, after := Outstanding(conns), Outstanding(conns[c := k]);
    if k.dones == 0 {
      assert after == before + {c};
    } else {
      assert after == before - {c};
    }
  }

  lemma TicketMakesWaitGroupPositive(s: Server, c: ConnId)
    requires Inv(s) && c in s.conns && s.conns[c].dones == 0
    ensures s.wg > 0
  {
    assert c in Outstanding(s.conns);
  }

  // ----- every step keeps the invariant -----

  /** All that a connection step may change: that connection, its own ticket and its own table entry. */
  predicate ConnFrame(s: Server, s': Server, c: ConnId)
    requires c in s.conns
  {
    && s'.fields == s.fields && s'.run == s.run && s'.accept == s.accept && s'.runs == s.runs
    && s'.locked == s.locked && s'.broadcast == s.broadcast && s'.crash == NoCrash
    && c in s'.conns && s'.conns == s.conns[c := s'.conns[c]]
    && ConnOk(s'.conns[c])
    && s'.conns[c].run == s.conns[c].run && s'.conns[c].addr == s.conns[c].addr
    && s.conns[c].dones <= s'.conns[c].dones <= 1
    && s'.wg == s.wg - (s'.conns[c].dones - s.conns[c].dones)
    && (InUse(s'.conns[c]) ==> InUse(s.conns[c]))
    && TableFrame(s, s', c)
  }

  /** Uncleaned, or its handler still reads from the connection. */
  predicate InUse(k: Conn) {
    k.dones == 0 || k.handler == Serving
  }

  predicate TableFrame(s: Server, s': Server, c: ConnId)
    requires c in s.conns && c in s'.conns
  {
    var addr := s.conns[c].addr;
    || (Listed(s.conns[c]) == Listed(s'.conns[c]) && SameOwners(s.table, s'.table) && (s.locked ==> s'.table == s.table)
        && ChannelFrame(s, s', c))
    || (!s.locked && s.conns[c].dones == 0 && Listed(s'.conns[c]) && s'.conns[c].channel.None?
        && s'.table == WithSession(s.table, addr, c))
    || (!s.locked && s.conns[c].dones == 0 && !Listed(s'.conns[c]) && s'.table == WithoutSession(s.table, addr))
  }

  /** A channel shows up in the session of the connection's own address, just when the connection opens it. */
  predicate ChannelFrame(s: Server, s': Server, c: ConnId)
    requires c in s.conns && c in s'.conns && SameOwners(s.table, s'.table)
  {
    var addr := s.conns[c].addr;
    || (s'.table == s.table && s'.conns[c].channel == s.conns[c].channel)
    || (InUse(s.conns[c]) && s'.conns[c].channel.Some?
        && (forall a :: a in s.table ==>
              if a == addr then s'.table[a].channel == s'.conns[c].channel else s'.table[a] == s.table[a]))
  }

  predicate SameOwners(t: Table, t': Table) {
    t'.Keys == t.Keys && forall a :: a in t ==> t'[a].conn == t[a].conn
  }

  /** `Run` has taken the session lock, and no later Prepare has succeeded. */
  predicate PastLock(run: RunPc) {
    run.Announcing? || run.Grace? || run.Closing? || run.WaitGroup? || run.Reset? || run.NotRunning?
  }

  /** What a step can do to the fields that the theorems below speak of. */
  predicate Frame(s: Server, step: Step, s': Server) {
    match step
    case ByConn(c, _) => s' == s || (c in s.conns && ConnFrame(s, s', c))
    case ByAccept(a) =>
      && s'.fields == s.fields && s'.table == s.table && s'.run == s.run && s'.runs == s.runs && s'.crash == s.crash
      && s'.broadcast == s.broadcast
      && ((s'.conns == s.conns && s'.wg == s.wg)
          || (a.AcceptConn? && s.accept.InAccept? && a.conn !in s.conns && s'.wg == s.wg + 1
              && s'.conns == s.conns[a.conn := Conn(s.runs, a.addr, ReadConfig, None, [], Fresh, 0)]))
    case ByRun(r) =>
      && s'.conns == s.conns && s'.wg == s.wg && s'.table == s.table && s'.runs == s.runs && s'.crash == s.crash
      && (s'.fields == s.fields || s'.fields == ListenerClosed(s.fields) || s'.fields == STOPPED)
      && (!TicketsAllowed(s.run) ==> !TicketsAllowed(s'.run))
      && (PastLock(s.run) ==> PastLock(s'.run) && s'.broadcast.snapshot == s.broadcast.snapshot)
    case ByCaller(call) =>
      && s'.conns == s.conns && s'.wg == s.wg && s'.table == s.table
      && CallerFrame(s, call, s')
  }

  predicate CallerFrame(s: Server, call: Call, s': Server) {
    match call
    case Stop =>
      if s.crash == NoCrash && s.fields.isRunning
      then if s.fields.shutdown == ClosedSignal then s' == s.(crash := ClosedTwice)
           else s' == s.(fields := s.fields.(shutdown := ClosedSignal))
      else s' == s
    case StartRun =>
      && s'.fields == s.fields && s'.runs == s.runs && s'.crash == s.crash && s'.broadcast == s.broadcast
      && (s'.run == s.run || s.run == ToRun)
    case Prepare(_) =>
      || s' == s
      || (!s.fields.isRunning && s' == s.(fields := Prepared(s.runs + 1), runs := s.runs + 1, run := ToRun))
  }

  lemma CallerStepKeepsInv(s: Server, step: Call)
    requires Inv(s) && s.crash == NoCrash
    ensures Inv(ApplyCaller(s, step)) && Frame(s, ByCaller(step), ApplyCaller(s, step))
  {
    match step
    case Prepare(ok) => PrepareKeepsInv(s, ok);
    case StartRun => StartRunKeepsInv(s);
    case Stop => StopKeepsInv(s);
  }

  lemma PrepareKeepsInv(s: Server, ok: bool)
    requires Inv(s) && s.crash == NoCrash
    ensures Inv(ApplyCaller(s, Prepare(ok)))
  {
  }

  lemma StartRunKeepsInv(s: Server)
    requires Inv(s) && s.crash == NoCrash
    ensures Inv(ApplyCaller(s, StartRun))
  {
  }

  lemma StopKeepsInv(s: Server)
    requires Inv(s) && s.crash == NoCrash
    ensures Inv(ApplyCaller(s, Stop))
  {
  }

  lemma AcceptStepKeepsInv(s: Server, step: AcceptStep)
    requires Inv(s) && s.crash == NoCrash
    ensures Inv(ApplyAccept(s, step)) && Frame(s, ByAccept(step), ApplyAccept(s, step))
  {
    if step.AcceptConn? && s.accept == InAccept && step.conn !in s.conns {
      AcceptConnKeepsInv(s, step.conn, step.addr);
    }
  }

  lemma AcceptConnKeepsInv(s: Server, c: ConnId, addr: Addr)
    requires Inv(s) && s.crash == NoCrash && s.accept == InAccept && c !in s.conns
    ensures Inv(ApplyAccept(s, AcceptConn(c, addr)))
  {
    OutstandingPut(s.conns, c, Conn(s.runs, addr, ReadConfig, None, [], Fresh, 0));
  }

  lemma WaitSeesNoTicket(s: Server)
    requires Inv(s) && s.wg == 0
    ensures forall c :: c in s.conns ==> s.conns[c].dones != 0
  {
    assert Outstanding(s.conns) == {};
    assert forall c :: c in s.conns && s.conns[c].dones == 0 ==> c in Outstanding(s.conns);
  }

  lemma RunStepFrame(s: Server, step: RunStep)
    requires FieldsOk(s)
    ensures var s' := ApplyRun(s, step);
      Frame(s, ByRun(step), s') && FieldsOk(s')
      && (TicketsAllowed(s.run) && !TicketsAllowed(s'.run) ==> s.wg == 0)
  {
  }

  lemma RunFrameKeepsConns(s: Server, step: RunStep, s': Server)
    requires Inv(s) && Frame(s, ByRun(step), s')
    requires TicketsAllowed(s.run) && !TicketsAllowed(s'.run) ==> s.wg == 0
    ensures s'.wg == |Outstanding(s'.conns)| && ConnsOk(s') && TableOk(s')
  {
    if s.wg == 0 {
      WaitSeesNoTicket(s);
    }
  }

  lemma RunStepKeepsInv(s: Server, step: RunStep)
    requires Inv(s) && s.crash == NoCrash
    ensures Inv(ApplyRun(s, step)) && Frame(s, ByRun(step), ApplyRun(s, step))
  {
    RunStepFrame(s, step);
    RunFrameKeepsConns(s, step, ApplyRun(s, step));
    RunStepKeepsBroadcast(s, step);
  }

  lemma RunStepKeepsBroadcast(s: Server, step: RunStep)
    requires FieldsOk(s) && BroadcastOk(s)
    ensures BroadcastOk(ApplyRun(s, step))
  {
    match step
    case DoLockSessions =>
    case Announce(_) =>
    case EndAnnounce =>
    case EndGrace =>
    case CloseConn(_) =>
    case EndClose =>
    case _ =>
  }

  predicate IsHandshakeStep(step: ConnStep) {
    step.DoReadConfig? || step.HandshakeOk? || step.HandshakeFailed? || step.RejectDone?
  }

  predicate IsServingStep(step: ConnStep) {
    step.DoAdd? || step.OpenChannel? || step.EndServing?
  }

  lemma HandshakeFrame(s: Server, step: ConnStep, c: ConnId)
    requires IsHandshakeStep(step)
    requires s.crash == NoCrash && c in s.conns
    requires ConnOk(s.conns[c]) && (s.conns[c].dones == 0 ==> s.wg > 0)
    requires s.conns[c].handler == ReadConfig ==> s.fields.config.Some?
    ensures ConnFrame(s, ApplyConn(s, step, c, s.conns[c]), c)
  {
    assert s.conns == s.conns[c := s.conns[c]];
  }

  lemma ServingFrame(s: Server, step: ConnStep, c: ConnId)
    requires IsServingStep(step)
    requires s.crash == NoCrash && c in s.conns
    requires ConnOk(s.conns[c]) && (s.conns[c].dones == 0 ==> s.wg > 0)
    ensures ConnFrame(s, ApplyConn(s, step, c, s.conns[c]), c)
  {
    assert s.conns == s.conns[c := s.conns[c]];
  }

  lemma PtyFrame(s: Server, step: ConnStep, c: ConnId)
    requires step.StartPty? || step.CommandExits?
    requires s.crash == NoCrash && c in s.conns
    requires ConnOk(s.conns[c]) && (s.conns[c].dones == 0 ==> s.wg > 0)
    ensures ConnFrame(s, ApplyConn(s, step, c, s.conns[c]), c)
  {
    assert s.conns == s.conns[c := s.conns[c]];
  }

  lemma OnceFrame(s: Server, step: ConnStep, c: ConnId)
    requires step.EnterOnce? || step.LeaveOnce?
    requires s.crash == NoCrash && c in s.conns
    requires ConnOk(s.conns[c]) && (s.conns[c].dones == 0 ==> s.wg > 0)
    ensures ConnFrame(s, ApplyConn(s, step, c, s.conns[c]), c)
  {
    assert s.conns == s.conns[c := s.conns[c]];
  }

  lemma CleanupFrame(s: Server, step: ConnStep, c: ConnId)
    requires step.Cleanup?
    requires s.crash == NoCrash && c in s.conns
    requires ConnOk(s.conns[c]) && (s.conns[c].dones == 0 ==> s.wg > 0)
    ensures ConnFrame(s, ApplyConn(s, step, c, s.conns[c]), c)
  {
    assert s.conns == s.conns[c := s.conns[c]];
  }

  lemma FrameKeepsTable(s: Server, s': Server, c: ConnId)
    requires c in s.conns && ConnFrame(s, s', c) && TableOk(s)
    ensures TableOk(s')
  {
  }

  lemma FrameKeepsInv(s: Server, s': Server, c: ConnId)
    requires Inv(s) && c in s.conns && ConnFrame(s, s', c)
    ensures Inv(s')
  {
    FrameKeepsTable(s, s', c);
    OutstandingPut(s.conns, c, s'.conns[c]);
  }

  lemma ConnStepKeepsInv(s: Server, step: ConnStep, c: ConnId)
    requires Inv(s) && s.crash == NoCrash && c in s.conns
    ensures ConnFrame(s, ApplyConn(s, step, c, s.conns[c]), c)
    ensures Inv(ApplyConn(s, step, c, s.conns[c]))
  {
    if s.conns[c].dones == 0 {
      TicketMakesWaitGroupPositive(s, c);
    }
    if IsHandshakeStep(step) {
      HandshakeFrame(s, step, c);
    } else if IsServingStep(step) {
      ServingFrame(s, step, c);
    } else if step.Cleanup? {
      CleanupFrame(s, step, c);
    } else if step.StartPty? || step.CommandExits? {
      PtyFrame(s, step, c);
    } else {
      OnceFrame(s, step, c);
    }
    FrameKeepsInv(s, ApplyConn(s, step, c, s.conns[c]), c);
  }

  lemma StepKeepsInv(s: Server, step: Step)
    requires Inv(s)
    ensures Inv(Apply(s, step)) && Frame(s, step, Apply(s, step))
  {
    if s.crash == NoCrash {
      match step
      case ByCaller(call) => CallerStepKeepsInv(s, call);
      case ByRun(r) => RunStepKeepsInv(s, r);
      case ByAccept(a) => AcceptStepKeepsInv(s, a);
      case ByConn(c, k) =>
        if c in s.conns {
          ConnStepKeepsInv(s, k, c);
        }
    }
  }

  lemma RunKeepsInv(s: Server, steps: seq<Step>)
    requires Inv(s)
    ensures Inv(Exec(s, steps))
  {
    forall t, e | Inv(t)
      ensures Inv(Apply(t, e))
    {
      StepKeepsInv(t, e);
    }
    RunInvariant(Apply, Inv, s, steps);
  }

  lemma Reachable(steps: seq<Step>)
    ensures Inv(Exec(INIT, steps))
  {
    RunKeepsInv(INIT, steps);
  }

  // ----- what follows -----

  /**
   * The WaitGroup counter is the number of accepted connections not yet cleaned up, so it is never
   * negative; and no connection is ever counted off twice.
   */
  lemma WaitGroupCountsUncleaned(steps: seq<Step>)
    ensures var s := Exec(INIT, steps);
      && s.wg == |Outstanding(s.conns)|
      && forall c :: c in s.conns ==> s.conns[c].dones <= 1
  {
    Reachable(steps);
  }

  /** A connection's ticket is given back exactly when its rejected handshake or its one cleanup gets that far. */
  lemma TicketGivenBackExactly(steps: seq<Step>, c: ConnId)
    ensures var s := Exec(INIT, steps);
      c in s.conns ==>
        (c !in Outstanding(s.conns) <==>
          s.conns[c].handler == RejectedExit || s.conns[c].once == Finished || s.conns[c].once == Running(AtReturn))
  {
    Reachable(steps);
  }

  /**
   * Whatever lowers the counter lowers it by one, for one connection of the current run whose ticket
   * is outstanding: a handler or waiter left over from an earlier run never does.
   */
  lemma LeftoversNeverDecrement(steps: seq<Step>, step: Step)
    ensures var s := Exec(INIT, steps);
      var s' := Apply(s, step);
      s'.wg < s.wg ==>
        && step.ByConn? && step.conn in Outstanding(s.conns)
        && s.conns[step.conn].run == s.runs && TicketsAllowed(s.run)
        && Outstanding(s'.conns) == Outstanding(s.conns) - {step.conn}
        && s'.wg == s.wg - 1
  {
    Reachable(steps);
    var s := Exec(INIT, steps);
    StepKeepsInv(s, step);
    if Apply(s, step).wg < s.wg {
      FrameDecrements(s, step, Apply(s, step));
    }
  }

  lemma FrameDecrements(s: Server, step: Step, s': Server)
    requires Inv(s) && Frame(s, step, s') && s'.wg < s.wg
    ensures step.ByConn? && step.conn in Outstanding(s.conns)
    ensures s.conns[step.conn].run == s.runs && TicketsAllowed(s.run)
    ensures Outstanding(s'.conns) == Outstanding(s.conns) - {step.conn} && s'.wg == s.wg - 1
  {
  }

  /** Every session in the table belongs to a connection whose ticket is outstanding, at that connection's address. */
  lemma TableKeysHaveTickets(steps: seq<Step>)
    ensures var s := Exec(INIT, steps);
      forall a :: a in s.table ==>
        s.table[a].conn in Outstanding(s.conns) && s.conns[s.table[a].conn].addr == a
  {
    Reachable(steps);
  }

  lemma QuietMeansEmpty(s: Server)
    requires Inv(s) && !TicketsAllowed(s.run)
    ensures s.wg == 0 && s.table == map[] && Outstanding(s.conns) == {} && s.accept != AtAccept && s.accept != InAccept
  {
  }

  /**
   * Once `Run` is past `wg.Wait` the table is empty and no ticket is out, and that stays so however the
   * leftover goroutines, further Stops and further Prepares go on, until the next `Run` starts.
   */
  lemma {:induction false} EmptyUntilNextRun(steps: seq<Step>, more: seq<Step>)
    requires !TicketsAllowed(Exec(INIT, steps).run)
    requires ByCaller(StartRun) !in more
    ensures var s := Exec(Exec(INIT, steps), more);
      s.table == map[] && s.wg == 0 && Outstanding(s.conns) == {} && !TicketsAllowed(s.run)
  {
    Reachable(steps);
    QuietStaysQuiet(Exec(INIT, steps), more);
  }

  lemma {:induction false} QuietStaysQuiet(s: Server, more: seq<Step>)
    requires Inv(s) && !TicketsAllowed(s.run) && ByCaller(StartRun) !in more
    ensures var s' := Exec(s, more);
      s'.table == map[] && s'.wg == 0 && Outstanding(s'.conns) == {} && !TicketsAllowed(s'.run)
    decreases |more|
  {
    QuietMeansEmpty(s);
    if more != [] {
      assert more[0] in more;
      StepKeepsInv(s, more[0]);
      FrameStaysQuiet(s, more[0], Apply(s, more[0]));
      QuietStaysQuiet(Apply(s, more[0]), more[1..]);
    }
  }

  lemma FrameStaysQuiet(s: Server, step: Step, s': Server)
    requires Inv(s) && Frame(s, step, s') && Inv(s') && !TicketsAllowed(s.run) && step != ByCaller(StartRun)
    ensures !TicketsAllowed(s'.run)
  {
  }

  /**
   * The two unlocked reads are safe in every run: a handler about to read `config` reads the one its
   * own run prepared, and the accept loop about to read `listener` reads a non-nil one.
   */
  lemma UnlockedReadsAreSafe(steps: seq<Step>)
    ensures var s := Exec(INIT, steps);
      && (forall c :: c in s.conns && s.conns[c].handler == ReadConfig ==> s.fields.config == Some(s.conns[c].run))
      && (s.accept == AtAccept ==> s.fields.listener != NoSocket)
  {
    Reachable(steps);
  }

  /** What the two theorems about panics exclude: in any state, reachable or not, these steps would panic. */
  lemma WhatWouldPanic(s: Server, c: ConnId)
    requires s.crash == NoCrash
    ensures s.accept == AtAccept && s.fields.listener == NoSocket ==>
      Apply(s, ByAccept(CallAccept)).crash == NilListener
    ensures c in s.conns && s.conns[c].handler == ReadConfig && s.fields.config == None ==>
      Apply(s, ByConn(c, DoReadConfig)).crash == NilConfig
    ensures c in s.conns && s.conns[c].handler == Rejected && s.wg <= 0 ==>
      Apply(s, ByConn(c, RejectDone)).crash == NegativeWaitGroup
    ensures c in s.conns && s.conns[c].once == Running(AtDone) && s.wg <= 0 ==>
      Apply(s, ByConn(c, Cleanup)).crash == NegativeWaitGroup
    ensures s.fields.isRunning && s.fields.shutdown != OpenSignal ==> Apply(s, ByCaller(Stop)).crash == ClosedTwice
  {
  }

  /** No `wg.Add` runs once `Run` has reached `wg.Wait`: the accept loop has been joined. */
  lemma NoAddDuringWait(steps: seq<Step>, step: Step)
    ensures var s := Exec(INIT, steps);
      s.run == WaitGroup || s.run == Reset ==> Apply(s, step).wg <= s.wg
  {
    Reachable(steps);
    StepKeepsInv(Exec(INIT, steps), step);
  }

  /** While `BroadcastAndClose` holds the mutex, grace period included, no step of anyone changes the table. */
  lemma TableFrozenDuringBroadcast(steps: seq<Step>, step: Step)
    ensures var s := Exec(INIT, steps);
      s.locked ==> Apply(s, step).table == s.table == s.broadcast.snapshot
  {
    Reachable(steps);
    StepKeepsInv(Exec(INIT, steps), step);
  }

  /**
   * The connections closed are those of the table at lock acquisition; the announcements were made to
   * those with a channel, on that channel.
   */
  lemma BroadcastClosesTheLockedTable(steps: seq<Step>)
    ensures var s := Exec(INIT, steps);
      s.run == WaitGroup || s.run == Reset ==>
        && s.broadcast.closed.Keys == s.broadcast.snapshot.Keys
        && s.broadcast.announced.Keys <= s.broadcast.closed.Keys
        && (forall a :: a in s.broadcast.snapshot ==>
              && s.broadcast.closed[a] == s.broadcast.snapshot[a].conn
              && (if a in s.broadcast.announced then Some(s.broadcast.announced[a]) else None)
                 == s.broadcast.snapshot[a].channel)
  {
    Reachable(steps);
  }

  // ----- the only panic: two Stops in one run -----

  function StateAt(steps: seq<Step>, i: nat): Server
    requires i <= |steps|
  {
    At(Apply, INIT, steps, i)
  }

  lemma StateNext(steps: seq<Step>, i: nat)
    requires i < |steps|
    ensures StateAt(steps, i + 1) == Apply(StateAt(steps, i), steps[i])
    ensures Inv(StateAt(steps, i)) && Frame(StateAt(steps, i), steps[i], StateAt(steps, i + 1))
    ensures ShutdownFrame(StateAt(steps, i), steps[i], StateAt(steps, i + 1))
  {
    var s, s' := StateAt(steps, i), Apply(StateAt(steps, i), steps[i]);
    AtNext(Apply, INIT, steps, i);
    Reachable(steps[..i]);
    StepKeepsInv(s, steps[i]);
    FrameKeepsShutdown(s, steps[i], s');
  }

  /** The part of it that concerns the shutdown signal and the panic. */
  lemma ShutdownNext(steps: seq<Step>, i: nat)
    requires i < |steps|
    ensures ShutdownFrame(StateAt(steps, i), steps[i], StateAt(steps, i + 1))
  {
    StateNext(steps, i);
  }

  /** A call of `Stop` that finds the server running, in its `runNo`-th run. */
  predicate StopsRun(steps: seq<Step>, i: nat, runNo: nat)
    requires i < |steps|
  {
    steps[i] == ByCaller(Stop) && StateAt(steps, i).fields.isRunning && StateAt(steps, i).runs == runNo
  }

  ghost predicate StoppedTwice(steps: seq<Step>) {
    exists i: nat, j: nat, r: nat :: i < j < |steps| && StopsRun(steps, i, r) && StopsRun(steps, j, r)
  }

  lemma {:induction false} ClosedMeansStopped(steps: seq<Step>, n: nat)
    requires n <= |steps|
    requires StateAt(steps, n).fields.shutdown == ClosedSignal
    ensures exists i: nat :: i < n && StopsRun(steps, i, StateAt(steps, n).runs)
    decreases n
  {
    assert StateAt(steps, 0) == INIT;
    ShutdownNext(steps, n - 1);
    if !StopsRun(steps, n - 1, StateAt(steps, n).runs) {
      ClosedMeansStopped(steps, n - 1);
    }
  }

  /** Only an accepted Stop closes the signal of a run; only Prepare and the reset at its end replace it. */
  predicate ShutdownFrame(s: Server, step: Step, s': Server) {
    && (s'.fields.shutdown == ClosedSignal && s.fields.shutdown != ClosedSignal ==>
          step == ByCaller(Stop) && s.fields.isRunning)
    && (s'.fields.shutdown == ClosedSignal ==> s'.runs == s.runs)
    && (s.fields.shutdown == ClosedSignal && s'.fields.isRunning && s'.runs == s.runs ==>
          s'.fields.shutdown == ClosedSignal)
    && s.runs <= s'.runs
    && (!s.fields.isRunning && s'.fields.isRunning ==> s.runs < s'.runs)
    && (s.crash != NoCrash ==> s'.crash != NoCrash)
    && (s.crash == NoCrash && s'.crash != NoCrash ==>
          step == ByCaller(Stop) && s.fields.isRunning && s.fields.shutdown == ClosedSignal)
  }

  lemma FrameKeepsShutdown(s: Server, step: Step, s': Server)
    requires Inv(s) && Frame(s, step, s') && (s.crash != NoCrash ==> s' == s)
    ensures ShutdownFrame(s, step, s')
  {
  }

  lemma {:induction false} ClosedStaysClosed(steps: seq<Step>, i: nat, j: nat)
    requires i <= j <= |steps|
    requires StateAt(steps, i).fields.shutdown == ClosedSignal
    requires StateAt(steps, j).fields.isRunning && StateAt(steps, j).runs == StateAt(steps, i).runs
    ensures StateAt(steps, j).fields.shutdown == ClosedSignal
    decreases j - i
  {
    if i < j {
      ShutdownNext(steps, j - 1);
      RunsGrow(steps, i, j - 1);
      ClosedStaysClosed(steps, i, j - 1);
    }
  }

  lemma {:induction false} RunsGrow(steps: seq<Step>, i: nat, j: nat)
    requires i <= j <= |steps|
    ensures StateAt(steps, i).runs <= StateAt(steps, j).runs
    decreases j - i
  {
    if i < j {
      ShutdownNext(steps, j - 1);
      RunsGrow(steps, i, j - 1);
    }
  }

  lemma {:induction false} CrashHasFirstStep(steps: seq<Step>, n: nat)
    requires n <= |steps| && StateAt(steps, n).crash != NoCrash
    ensures exists j: nat :: j < n && StateAt(steps, j).crash == NoCrash && StateAt(steps, j + 1).crash != NoCrash
    decreases n
  {
    assert StateAt(steps, 0) == INIT;
    if StateAt(steps, n - 1).crash != NoCrash {
      CrashHasFirstStep(steps, n - 1);
    } else {
      assert StateAt(steps, n - 1 + 1).crash != NoCrash;
    }
  }

  lemma {:induction false} CrashStays(steps: seq<Step>, i: nat, j: nat)
    requires i <= j <= |steps| && StateAt(steps, i).crash != NoCrash
    ensures StateAt(steps, j).crash != NoCrash
    decreases j - i
  {
    if i < j {
      ShutdownNext(steps, j - 1);
      CrashStays(steps, i, j - 1);
    }
  }

  lemma CrashMeansStoppedTwice(steps: seq<Step>)
    requires StateAt(steps, |steps|).crash != NoCrash
    ensures StoppedTwice(steps)
  {
    CrashHasFirstStep(steps, |steps|);
    var j: nat :| j < |steps| && StateAt(steps, j).crash == NoCrash && StateAt(steps, j + 1).crash != NoCrash;
    CrashIsSecondStop(steps, j);
    var r := StateAt(steps, j).runs;
    ClosedMeansStopped(steps, j);
    var i: nat :| i < j && StopsRun(steps, i, r);
  }

  lemma CrashIsSecondStop(steps: seq<Step>, j: nat)
    requires j < |steps| && StateAt(steps, j).crash == NoCrash && StateAt(steps, j + 1).crash != NoCrash
    ensures StateAt(steps, j).fields.shutdown == ClosedSignal && StopsRun(steps, j, StateAt(steps, j).runs)
  {
    ShutdownNext(steps, j);
  }

  lemma SecondStopCrashes(steps: seq<Step>, i: nat, j: nat, r: nat)
    requires i < j < |steps| && StopsRun(steps, i, r) && StopsRun(steps, j, r)
    ensures StateAt(steps, |steps|).crash != NoCrash
  {
    StateNext(steps, i);
    StateNext(steps, j);
    if StateAt(steps, i + 1).crash == NoCrash && StateAt(steps, j).crash == NoCrash {
      ClosedStaysClosed(steps, i + 1, j);
      CrashStays(steps, j + 1, |steps|);
    } else if StateAt(steps, j).crash != NoCrash {
      CrashStays(steps, j, |steps|);
    } else {
      CrashStays(steps, i + 1, |steps|);
    }
  }

  /**
   * A run panics if and only if `Stop` finds the server running twice within one Prepare/Run cycle:
   * no nil config, no nil listener and no negative WaitGroup counter, in any interleaving.
   */
  lemma PanicsExactlyOnSecondStop(steps: seq<Step>)
    ensures Exec(INIT, steps).crash != NoCrash <==> StoppedTwice(steps)
  {
    assert steps[..|steps|] == steps;
    if StateAt(steps, |steps|).crash != NoCrash {
      CrashMeansStoppedTwice(steps);
    }
    if StoppedTwice(steps) {
      var i: nat, j: nat, r: nat :| i < j < |steps| && StopsRun(steps, i, r) && StopsRun(steps, j, r);
      SecondStopCrashes(steps, i, j, r);
    }
  }

  // ----- which connections the broadcast closes -----

  /**
   * No connection is accepted at an address whose previous connection is still in use. Nothing enforces
   * it: a peer can reset its connection and come back from the same port before the cleanup has run.
   */
  predicate FreshAddress(s: Server, step: Step) {
    step.ByAccept? && step.acceptStep.AcceptConn? ==>
      forall c :: c in s.conns && InUse(s.conns[c]) ==> s.conns[c].addr != step.acceptStep.addr
  }

  predicate FreshAddresses(s: Server, steps: seq<Step>)
    decreases |steps|
  {
    steps == [] || (FreshAddress(s, steps[0]) && FreshAddresses(Apply(s, steps[0]), steps[1..]))
  }

  predicate AddressesDistinct(s: Server) {
    forall c, d :: c in s.conns && d in s.conns && c != d && InUse(s.conns[c]) && InUse(s.conns[d]) ==>
      s.conns[c].addr != s.conns[d].addr
  }

  predicate Owns(t: Table, c: ConnId, addr: Addr) {
    addr in t && t[addr].conn == c
  }

  /** The table holds exactly the connections past `Add` and short of `Remove`, with the last channel each opened. */
  predicate TableExact(s: Server) {
    forall c :: c in s.conns ==>
      && (Owns(s.table, c, s.conns[c].addr) <==> Listed(s.conns[c]))
      && (Owns(s.table, c, s.conns[c].addr) ==>
            s.table[s.conns[c].addr].channel == s.conns[c].channel)
  }

  lemma ConnFrameKeepsTableExact(s: Server, s': Server, c: ConnId)
    requires ConnsOk(s) && AddressesDistinct(s) && TableExact(s) && c in s.conns && ConnFrame(s, s', c)
    ensures AddressesDistinct(s') && TableExact(s')
  {
  }

  lemma FrameKeepsTableExact(s: Server, step: Step, s': Server)
    requires Inv(s) && AddressesDistinct(s) && TableExact(s) && FreshAddress(s, step) && Frame(s, step, s')
    ensures AddressesDistinct(s') && TableExact(s')
  {
    if step.ByConn? && s' != s {
      ConnFrameKeepsTableExact(s, s', step.conn);
    }
  }

  lemma {:induction false} RunKeepsTableExact(s: Server, steps: seq<Step>)
    requires Inv(s) && AddressesDistinct(s) && TableExact(s) && FreshAddresses(s, steps)
    ensures TableExact(Exec(s, steps))
    decreases |steps|
  {
    if steps != [] {
      StepKeepsInv(s, steps[0]);
      FrameKeepsTableExact(s, steps[0], Apply(s, steps[0]));
      RunKeepsTableExact(Apply(s, steps[0]), steps[1..]);
    }
  }

  lemma TableIsExact(steps: seq<Step>, n: nat)
    requires FreshAddresses(INIT, steps) && n <= |steps|
    ensures TableExact(StateAt(steps, n)) && TableOk(StateAt(steps, n))
  {
    assert steps[..n] + steps[n..] == steps;
    FreshPrefix(INIT, steps[..n], steps[n..]);
    RunKeepsTableExact(INIT, steps[..n]);
    Reachable(steps[..n]);
  }

  lemma {:induction false} FreshPrefix(s: Server, xs: seq<Step>, ys: seq<Step>)
    requires FreshAddresses(s, xs + ys)
    ensures FreshAddresses(s, xs)
    decreases |xs|
  {
    if xs != [] {
      assert (xs + ys)[1..] == xs[1..] + ys;
      FreshPrefix(Apply(s, xs[0]), xs[1..], ys);
    }
  }

  /** Connections are never forgotten, and the table taken at the lock is the one the same run closes from. */
  predicate Since(s: Server, s': Server) {
    && (forall c :: c in s.conns ==> c in s'.conns && s'.conns[c].addr == s.conns[c].addr)
    && s.runs <= s'.runs
    && (PastLock(s.run) && s'.runs == s.runs ==> PastLock(s'.run) && s'.broadcast.snapshot == s.broadcast.snapshot)
  }

  lemma FrameSince(s: Server, step: Step, s': Server)
    requires Inv(s) && Frame(s, step, s')
    ensures Since(s, s')
  {
  }

  lemma {:induction false} RunSince(steps: seq<Step>, n: nat, m: nat)
    requires n <= m <= |steps|
    ensures Since(StateAt(steps, n), StateAt(steps, m))
    decreases m - n
  {
    if n < m {
      StateNext(steps, m - 1);
      FrameSince(StateAt(steps, m - 1), steps[m - 1], StateAt(steps, m));
      RunSince(steps, n, m - 1);
    }
  }

  /** The broadcast called `conn.Close` on this very connection, not on another one under its address. */
  predicate WasClosed(s: Server, c: ConnId)
    requires c in s.conns
  {
    s.conns[c].addr in s.broadcast.closed && s.broadcast.closed[s.conns[c].addr] == c
  }

  /** It wrote its message to this very connection, on `channel`. */
  predicate WasAnnouncedOn(s: Server, c: ConnId, channel: ChannelId)
    requires c in s.conns
  {
    && s.conns[c].addr in s.broadcast.announced && s.broadcast.announced[s.conns[c].addr] == channel
    && Owns(s.broadcast.snapshot, c, s.conns[c].addr)
  }

  predicate LocksAt(steps: seq<Step>, n: nat)
    requires n < |steps|
  {
    steps[n] == ByRun(DoLockSessions) && StateAt(steps, n).run == LockSessions && StateAt(steps, n).crash == NoCrash
  }

  /** `Run` is at `wg.Wait` in position `m`, and took the session lock of the same run at position `n`. */
  predicate WaitsAfterLock(steps: seq<Step>, n: nat, m: nat)
    requires n < |steps| && m <= |steps|
  {
    && n < m && LocksAt(steps, n)
    && StateAt(steps, m).run == WaitGroup && StateAt(steps, m).runs == StateAt(steps, n).runs
  }

  /**
   * In every run, a connection accepted by then or since has been closed by the broadcast if and only if
   * it was the one in the table, at its address, when the lock was taken; and announced to, on a channel,
   * if and only if its entry also had that channel.
   */
  lemma ClosedExactlyWhenInTableAtLock(steps: seq<Step>, n: nat, m: nat, c: ConnId, channel: ChannelId)
    requires n < |steps| && m <= |steps| && WaitsAfterLock(steps, n, m) && c in StateAt(steps, m).conns
    ensures var s, s' := StateAt(steps, n), StateAt(steps, m);
      && (WasClosed(s', c) <==> c in s.conns && Owns(s.table, c, s.conns[c].addr))
      && (WasAnnouncedOn(s', c, channel) <==>
            c in s.conns && Owns(s.table, c, s.conns[c].addr) && s.table[s.conns[c].addr].channel == Some(channel))
  {
    var s, s' := StateAt(steps, n), StateAt(steps, m);
    StateNext(steps, n);
    LockTakesTable(s);
    RunSince(steps, n + 1, m);
    RunSince(steps, n, m);
    Reachable(steps[..n]);
    Reachable(steps[..m]);
    assert s'.broadcast.snapshot == s.table && s'.broadcast.closed == Closings(s.table);
    if c in s.conns {
      assert s'.conns[c].addr == s.conns[c].addr;
    }
  }

  /** The channel of the last `OpenChannel` of connection `c` that took effect in the first `n` steps. */
  function LastOpened(steps: seq<Step>, n: nat, c: ConnId): Option<ChannelId>
    requires n <= |steps|
    decreases n
  {
    if n == 0 then None
    else if OpensChannel(StateAt(steps, n - 1), steps[n - 1], c) then Some(steps[n - 1].connStep.channel)
    else LastOpened(steps, n - 1, c)
  }

  /** A session channel is opened while `c` is served and nobody holds the session lock. */
  predicate OpensChannel(s: Server, step: Step, c: ConnId) {
    && step.ByConn? && step.conn == c && step.connStep.OpenChannel?
    && s.crash == NoCrash && c in s.conns && s.conns[c].handler == Serving && !s.locked
  }

  lemma ChannelNext(s: Server, step: Step, c: ConnId)
    requires c in s.conns
    ensures c in Apply(s, step).conns
    ensures Apply(s, step).conns[c].channel ==
      if OpensChannel(s, step, c) then Some(step.connStep.channel) else s.conns[c].channel
  {
    if step.ByConn? && step.conn == c && s.crash == NoCrash {
      ConnChannelNext(s, step.connStep, c);
    } else {
      OtherConnSame(s, step, c);
    }
  }

  lemma ConnChannelNext(s: Server, step: ConnStep, c: ConnId)
    requires c in s.conns && s.crash == NoCrash
    ensures var s' := ApplyConn(s, step, c, s.conns[c]);
      c in s'.conns && s'.conns[c].channel ==
        if step.OpenChannel? && s.conns[c].handler == Serving && !s.locked then Some(step.channel)
        else s.conns[c].channel
  {
  }

  /** A connection changes only by its own steps. */
  lemma OtherConnSame(s: Server, step: Step, c: ConnId)
    requires c in s.conns && !(step.ByConn? && step.conn == c && s.crash == NoCrash)
    ensures c in Apply(s, step).conns && Apply(s, step).conns[c] == s.conns[c]
  {
    ActorConns(s, step);
  }

  /** What each actor can do to the connections. */
  lemma ActorConns(s: Server, step: Step)
    ensures var s' := Apply(s, step);
      match step
      case ByCaller(_) => s'.conns == s.conns
      case ByRun(_) => s'.conns == s.conns
      case ByAccept(a) =>
        || s'.conns == s.conns
        || (a.AcceptConn? && a.conn !in s.conns
            && s'.conns == s.conns[a.conn := Conn(s.runs, a.addr, ReadConfig, None, [], Fresh, 0)])
      case ByConn(d, _) =>
        s'.conns == s.conns || (d in s.conns && d in s'.conns && s'.conns == s.conns[d := s'.conns[d]])
  {
    match step
    case ByConn(d, k) =>
      if d in s.conns {
        ConnLeavesOthers(s, k, d);
      }
    case ByRun(r) => RunLeavesConns(s, r);
    case _ =>
  }

  lemma RunLeavesConns(s: Server, step: RunStep)
    ensures ApplyRun(s, step).conns == s.conns
  {
  }

  lemma ConnLeavesOthers(s: Server, step: ConnStep, d: ConnId)
    requires d in s.conns
    ensures var s' := ApplyConn(s, step, d, s.conns[d]);
      d in s'.conns && s'.conns == s.conns[d := s'.conns[d]]
  {
    assert s.conns == s.conns[d := s.conns[d]];
  }

  /** And comes into being accepted. */
  lemma NewIsAccepted(s: Server, step: Step, c: ConnId)
    requires c !in s.conns && c in Apply(s, step).conns
    ensures step.ByAccept? && step.acceptStep.AcceptConn? && step.acceptStep.conn == c
    ensures Apply(s, step).conns[c] == Conn(s.runs, step.acceptStep.addr, ReadConfig, None, [], Fresh, 0)
  {
    ActorConns(s, step);
  }

  lemma {:induction false} ChannelIsLastOpened(steps: seq<Step>, n: nat, c: ConnId)
    requires n <= |steps|
    ensures LastOpened(steps, n, c) == if c in StateAt(steps, n).conns then StateAt(steps, n).conns[c].channel else None
    decreases n
  {
    if n == 0 {
      assert StateAt(steps, 0) == INIT;
    } else {
      AtNext(Apply, INIT, steps, n - 1);
      ChannelIsLastOpened(steps, n - 1, c);
      var s := StateAt(steps, n - 1);
      if c in s.conns {
        ChannelNext(s, steps[n - 1], c);
      } else if c in StateAt(steps, n).conns {
        NewIsAccepted(s, steps[n - 1], c);
      }
    }
  }

  /**
   * If no address is reused while in use, that is: if and only if it was past `Add` and short of
   * `Remove`; and announced to on a channel if and only if that was also the last it had opened by then.
   * So "all connections are closed" is true of the uncleaned ones exactly when none of them was still
   * before `Add` at that moment, or was accepted later.
   */
  lemma ClosedExactlyWhenListedAtLock(steps: seq<Step>, n: nat, m: nat, c: ConnId, channel: ChannelId)
    requires n < |steps| && m <= |steps| && WaitsAfterLock(steps, n, m) && c in StateAt(steps, m).conns
    requires FreshAddresses(INIT, steps)
    ensures var s, s' := StateAt(steps, n), StateAt(steps, m);
      && (WasClosed(s', c) <==> c in s.conns && Listed(s.conns[c]))
      && (WasAnnouncedOn(s', c, channel) <==>
            c in s.conns && Listed(s.conns[c]) && LastOpened(steps, n, c) == Some(channel))
  {
    ClosedExactlyWhenInTableAtLock(steps, n, m, c, channel);
    TableIsExact(steps, n);
    ChannelIsLastOpened(steps, n, c);
  }

  /** And in every state of such a run a session in the table has the last channel its connection opened. */
  lemma SessionHasLastOpened(steps: seq<Step>, n: nat, a: Addr)
    requires n <= |steps| && FreshAddresses(INIT, steps) && a in StateAt(steps, n).table
    ensures var x := StateAt(steps, n).table[a]; x.channel == LastOpened(steps, n, x.conn)
  {
    TableIsExact(steps, n);
    ChannelIsLastOpened(steps, n, StateAt(steps, n).table[a].conn);
  }

  lemma LockTakesTable(s: Server)
    requires Inv(s) && s.run == LockSessions && s.crash == NoCrash
    ensures var s' := Apply(s, ByRun(DoLockSessions));
      s'.broadcast.snapshot == s.table && PastLock(s'.run) && s'.runs == s.runs
  {
  }

  lemma ReachStep(s: Server, step: Step, s': Server)
    requires Reaches(Apply, INIT, s) && Apply(s, step) == s'
    ensures Reaches(Apply, INIT, s')
  {
    ReachesNext(Apply, INIT, s, step);
  }

  const PEER: Addr := "10.0.0.1:50000"
  const PEER_CONN := Conn(1, PEER, Handshake, None, [], Fresh, 0)
  const STARTED := INIT.(fields := Prepared(1), runs := 1, run := Select, accept := AtAccept)
  const ACCEPTED := STARTED.(wg := 1, conns := map[0 := PEER_CONN])

  /** Serving its first run, with nothing in the table. */
  predicate Empty(s: Server) {
    && s.fields == Prepared(1) && s.run == Select && s.accept == AtAccept && s.crash == NoCrash
    && s.table == map[] && !s.locked && s.broadcast == Broadcast(map[], map[], map[])
  }

  const SIGNALLED := Prepared(1).(shutdown := ClosedSignal)
  const CLOSED_DOWN := SIGNALLED.(listener := ClosedSocket)

  /** From `s`, stopped, with `Run` before the lock; and with `Run` at `wg.Wait`. */
  function ToLock(s: Server): Server {
    s.(accept := Returned, fields := CLOSED_DOWN, run := LockSessions)
  }

  function ToWait(s: Server): Server {
    ToLock(s).(run := WaitGroup)
  }

  lemma ReachSignalled(s: Server)
    requires Empty(s) && Reaches(Apply, INIT, s)
    ensures Reaches(Apply, INIT, s.(accept := Returned, fields := SIGNALLED))
  {
    ReachStep(s, ByAccept(CallAccept), s.(accept := InAccept));
    ReachStep(s.(accept := InAccept), ByAccept(AcceptError), s.(accept := Returned));
    ReachStep(s.(accept := Returned), ByCaller(Stop), s.(accept := Returned, fields := SIGNALLED));
  }

  lemma ReachLock(s: Server)
    requires Empty(s) && Reaches(Apply, INIT, s)
    ensures Reaches(Apply, INIT, ToLock(s))
  {
    ReachSignalled(s);
    var t := s.(accept := Returned, fields := SIGNALLED);
    ReachStep(t, ByRun(SeeShutdown), t.(run := CloseListener));
    ReachStep(t.(run := CloseListener), ByRun(DoCloseListener), ToLock(s).(run := JoinAccept));
    ReachStep(ToLock(s).(run := JoinAccept), ByRun(DoJoinAccept), ToLock(s));
  }

  /** The broadcast over an empty table. */
  lemma LockToWait(s: Server)
    requires Empty(s)
    ensures Exec(ToLock(s), [ByRun(DoLockSessions), ByRun(EndAnnounce)] + [ByRun(EndGrace), ByRun(EndClose)]) ==
      ToWait(s)
  {
    RunAppend(Apply, ToLock(s), [ByRun(DoLockSessions), ByRun(EndAnnounce)], [ByRun(EndGrace), ByRun(EndClose)]);
    LockToGrace(s);
    GraceToWait(s);
  }

  function ToGrace(s: Server): Server {
    ToLock(s).(locked := true, run := Grace)
  }

  lemma LockToGrace(s: Server)
    requires Empty(s)
    ensures Exec(ToLock(s), [ByRun(DoLockSessions), ByRun(EndAnnounce)]) == ToGrace(s)
  {
    assert s.table.Keys == {};
    RunTwo(ToLock(s), ByRun(DoLockSessions), ByRun(EndAnnounce));
    assert Apply(ToLock(s), ByRun(DoLockSessions)) == ToGrace(s).(run := Announcing({}));
  }

  lemma GraceToWait(s: Server)
    requires Empty(s)
    ensures Exec(ToGrace(s), [ByRun(EndGrace), ByRun(EndClose)]) == ToWait(s)
  {
    assert s.table.Keys == {};
    RunTwo(ToGrace(s), ByRun(EndGrace), ByRun(EndClose));
    assert Apply(ToGrace(s), ByRun(EndGrace)) == ToGrace(s).(run := Closing({}));
  }

  lemma RunTwo(s: Server, x: Step, y: Step)
    ensures Exec(s, [x, y]) == Apply(Apply(s, x), y)
  {
    assert [x, y][1..] == [y];
    RunOne(Apply, Apply(s, x), y);
  }

  lemma ReachWait(s: Server)
    requires Empty(s) && Reaches(Apply, INIT, s)
    ensures Reaches(Apply, INIT, ToWait(s))
  {
    ReachLock(s);
    LockToWait(s);
    ReachesTrans(Apply, INIT, ToLock(s), ToWait(s));
  }

  lemma ReachStarted()
    ensures Reaches(Apply, INIT, STARTED)
  {
    ReachesSelf(Apply, INIT);
    ReachStep(INIT, ByCaller(Prepare(true)), INIT.(fields := Prepared(1), runs := 1, run := ToRun));
    ReachStep(INIT.(fields := Prepared(1), runs := 1, run := ToRun), ByCaller(StartRun), STARTED);
  }

  lemma ReachAccepted()
    ensures Reaches(Apply, INIT, ACCEPTED)
  {
    ReachStarted();
    ReachStep(STARTED, ByAccept(CallAccept), STARTED.(accept := InAccept));
    var s := ACCEPTED.(conns := map[0 := PEER_CONN.(handler := ReadConfig)]);
    ReachStep(STARTED.(accept := InAccept), ByAccept(AcceptConn(0, PEER)), s);
    ReachStep(s, ByConn(0, DoReadConfig), ACCEPTED);
  }

  const LATE :=
    ToWait(ACCEPTED).(conns := map[0 := PEER_CONN.(handler := Serving)], table := map[PEER := Session(0, None)])

  lemma ReachLate()
    ensures Reaches(Apply, INIT, LATE)
  {
    ReachAccepted();
    ReachWait(ACCEPTED);
    var t := ToWait(ACCEPTED).(conns := map[0 := PEER_CONN.(handler := AddSession)]);
    ReachStep(ToWait(ACCEPTED), ByConn(0, HandshakeOk), t);
    ReachStep(t, ByConn(0, DoAdd), LATE);
  }

  /**
   * "All connections are closed" is not true of every run: a handshake that ends after the broadcast
   * leaves a connection being served that nothing closed, and `Run` waits for it.
   */
  lemma LateHandshakeIsNotClosed()
    ensures exists steps :: var s := Exec(INIT, steps);
      && s.run == WaitGroup && s.crash == NoCrash && s.wg == 1
      && 0 in s.conns && s.conns[0].handler == Serving && s.conns[0].addr !in s.broadcast.closed
  {
    ReachLate();
    var steps :| Run(Apply, INIT, steps) == LATE;
    assert Exec(INIT, steps).run == WaitGroup;
  }

  // ----- an address reused before the cleanup of its last connection -----

  const DONE_SERVING := PEER_CONN.(handler := AtOnce)
  const REMOVED := DONE_SERVING.(once := Running(AtDone))
  const NEXT_CONN := PEER_CONN.(handler := Serving)
  const FIRST_DONE := ACCEPTED.(conns := map[0 := DONE_SERVING], table := map[PEER := Session(0, None)])
  const SECOND_SERVED :=
    FIRST_DONE.(wg := 2, conns := map[0 := DONE_SERVING, 1 := NEXT_CONN], table := map[PEER := Session(1, None)])
  const ROW_GONE := SECOND_SERVED.(conns := map[0 := REMOVED, 1 := NEXT_CONN], table := map[])

  /** Connection 0 is served and leaves its loop. */
  lemma ReachFirstDone()
    ensures Reaches(Apply, INIT, FIRST_DONE)
  {
    ReachAccepted();
    var s := ACCEPTED.(conns := map[0 := PEER_CONN.(handler := AddSession)]);
    ReachStep(ACCEPTED, ByConn(0, HandshakeOk), s);
    ReachStep(s, ByConn(0, DoAdd), FIRST_DONE.(conns := map[0 := NEXT_CONN]));
    ReachStep(FIRST_DONE.(conns := map[0 := NEXT_CONN]), ByConn(0, EndServing), FIRST_DONE);
  }

  /** Connection 1 comes from the same address: so far its handshake. */
  lemma ReachSecondHandshake()
    ensures Reaches(Apply, INIT, FIRST_DONE.(wg := 2, conns := map[0 := DONE_SERVING, 1 := PEER_CONN]))
  {
    ReachFirstDone();
    var s := FIRST_DONE.(wg := 2);
    ReachStep(FIRST_DONE, ByAccept(CallAccept), FIRST_DONE.(accept := InAccept));
    var t := s.(conns := map[0 := DONE_SERVING, 1 := PEER_CONN.(handler := ReadConfig)]);
    ReachStep(FIRST_DONE.(accept := InAccept), ByAccept(AcceptConn(1, PEER)), t);
    ReachStep(t, ByConn(1, DoReadConfig), s.(conns := map[0 := DONE_SERVING, 1 := PEER_CONN]));
  }

  /** It takes over the address's row of the table. */
  lemma ReachSecondServed()
    ensures Reaches(Apply, INIT, SECOND_SERVED)
  {
    ReachSecondHandshake();
    var s := FIRST_DONE.(wg := 2, conns := map[0 := DONE_SERVING, 1 := PEER_CONN]);
    var t := s.(conns := map[0 := DONE_SERVING, 1 := PEER_CONN.(handler := AddSession)]);
    ReachStep(s, ByConn(1, HandshakeOk), t);
    ReachStep(t, ByConn(1, DoAdd), SECOND_SERVED);
  }

  /** The first connection's cleanup removes that row. */
  lemma ReachRowGone()
    ensures Reaches(Apply, INIT, ROW_GONE)
  {
    ReachSecondServed();
    var s := SECOND_SERVED.(conns := map[0 := DONE_SERVING.(once := Running(AtRemove)), 1 := NEXT_CONN]);
    ReachStep(SECOND_SERVED, ByConn(0, EnterOnce(Handler)), s);
    assert WithoutSession(SECOND_SERVED.table, PEER) == map[];
    ReachStep(s, ByConn(0, Cleanup), ROW_GONE);
  }

  /**
   * Nor is it true of the connections past `Add` and short of `Remove` at the lock: one that reuses the
   * address of a connection not yet cleaned up loses its row to that one's cleanup and is not closed.
   */
  lemma ReusedAddressIsNotClosed()
    ensures exists front, back :: var s := Exec(INIT, front);
      var s' := Exec(s, back);
      && s.run == LockSessions && s.crash == NoCrash && 1 in s.conns && Listed(s.conns[1])
      && s'.run == WaitGroup && s'.crash == NoCrash && s'.runs == s.runs && s'.conns == s.conns
      && s.conns[1].addr !in s'.broadcast.closed
  {
    ReachRowGone();
    ReachLock(ROW_GONE);
    LockToWait(ROW_GONE);
    var front :| Run(Apply, INIT, front) == ToLock(ROW_GONE);
    var back := [ByRun(DoLockSessions), ByRun(EndAnnounce)] + [ByRun(EndGrace), ByRun(EndClose)];
    assert Exec(Exec(INIT, front), back) == ToWait(ROW_GONE);
  }

  /** The panic is reachable: two Stops after one Prepare. */
  lemma SecondStopPanics()
    ensures Exec(INIT, [ByCaller(Prepare(true))] + [ByCaller(Stop), ByCaller(Stop)]).crash == ClosedTwice
  {
    var s := INIT.(fields := Prepared(1), runs := 1, run := ToRun);
    RunAppend(Apply, INIT, [ByCaller(Prepare(true))], [ByCaller(Stop), ByCaller(Stop)]);
    RunOne(Apply, INIT, ByCaller(Prepare(true)));
    RunTwo(s, ByCaller(Stop), ByCaller(Stop));
  }
}
