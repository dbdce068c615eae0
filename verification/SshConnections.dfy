/**
 * What becomes of one connection in any run: who is served, who ends when, and how the ticket of a
 * rejected handshake comes back.
 */
module SshConnections {
  import opened Common
  import opened SessionManager
  import opened SshServer
  import opened SshServerProofs

  /** Step `i` is one of connection `c`'s, and is taken with its handler at `pc`. */
  predicate TakenAt(steps: seq<Step>, i: nat, c: ConnId, step: ConnStep, pc: HandlerPc)
    requires i < |steps|
  {
    var s := StateAt(steps, i);
    steps[i] == ByConn(c, step) && s.crash == NoCrash && c in s.conns && s.conns[c].handler == pc
  }

  // ----- a failed handshake -----

  predicate IsRejected(k: Conn) {
    k.handler == Rejected || k.handler == RejectedExit
  }

  lemma RejectedStays(s: Server, step: Step, c: ConnId)
    requires c in s.conns && IsRejected(s.conns[c]) && ConnOk(s.conns[c])
    ensures c in Apply(s, step).conns && IsRejected(Apply(s, step).conns[c])
  {
    if step.ByConn? && step.conn == c && s.crash == NoCrash {
      RejectedConnStays(s, step.connStep, c);
    } else {
      OtherConnSame(s, step, c);
    }
  }

  lemma RejectedConnStays(s: Server, step: ConnStep, c: ConnId)
    requires c in s.conns && IsRejected(s.conns[c]) && ConnOk(s.conns[c])
    ensures var s' := ApplyConn(s, step, c, s.conns[c]); c in s'.conns && IsRejected(s'.conns[c])
  {
  }

  lemma {:induction false} RejectedFrom(steps: seq<Step>, i: nat, n: nat, c: ConnId)
    requires i < n <= |steps| && TakenAt(steps, i, c, HandshakeFailed, Handshake)
    ensures c in StateAt(steps, n).conns && IsRejected(StateAt(steps, n).conns[c])
    decreases n
  {
    AtNext(Apply, INIT, steps, n - 1);
    Reachable(steps[..n - 1]);
    if i < n - 1 {
      RejectedFrom(steps, i, n - 1, c);
      RejectedStays(StateAt(steps, n - 1), steps[n - 1], c);
    }
  }

  /**
   * A connection whose handshake failed is never served: in every later state its handler is on its way
   * out, no session of the table is its own, and it has neither channel nor PTY. Its ticket is back if
   * and only if the handler has gone.
   */
  lemma RejectedIsNeverServed(steps: seq<Step>, i: nat, n: nat, c: ConnId)
    requires i < n <= |steps| && TakenAt(steps, i, c, HandshakeFailed, Handshake)
    ensures var s := StateAt(steps, n);
      && c in s.conns
      && (s.conns[c].handler == Rejected || s.conns[c].handler == RejectedExit)
      && (forall a :: a in s.table ==> s.table[a].conn != c)
      && s.conns[c].channel.None? && s.conns[c].waiters == []
      && (c !in Outstanding(s.conns) <==> s.conns[c].handler == RejectedExit)
  {
    RejectedFrom(steps, i, n, c);
    Reachable(steps[..n]);
  }

  /** And what gives the ticket back is the `wg.Done` of the failed handshake. */
  lemma RejectedTicket(steps: seq<Step>, i: nat, j: nat, c: ConnId)
    requires i < j < |steps| && TakenAt(steps, i, c, HandshakeFailed, Handshake)
    requires c in Outstanding(StateAt(steps, j).conns)
    ensures c !in Outstanding(StateAt(steps, j + 1).conns) <==> TakenAt(steps, j, c, RejectDone, Rejected)
  {
    RejectedIsNeverServed(steps, i, j, c);
    RejectedIsNeverServed(steps, i, j + 1, c);
    AtNext(Apply, INIT, steps, j);
    TicketIsLive(steps, j, c);
    RejectedNext(StateAt(steps, j), steps[j], c);
  }

  lemma TicketIsLive(steps: seq<Step>, j: nat, c: ConnId)
    requires j <= |steps| && c in Outstanding(StateAt(steps, j).conns)
    ensures ConnOk(StateAt(steps, j).conns[c]) && StateAt(steps, j).wg > 0
  {
    Reachable(steps[..j]);
    TicketMakesWaitGroupPositive(StateAt(steps, j), c);
  }

  lemma RejectedNext(s: Server, step: Step, c: ConnId)
    requires c in s.conns && s.conns[c].handler == Rejected && ConnOk(s.conns[c]) && (s.crash == NoCrash ==> s.wg > 0)
    ensures c in Apply(s, step).conns
    ensures Apply(s, step).conns[c].handler == RejectedExit <==> step == ByConn(c, RejectDone) && s.crash == NoCrash
  {
    if step.ByConn? && step.conn == c && s.crash == NoCrash {
      RejectedConnNext(s, step.connStep, c);
    } else {
      OtherConnSame(s, step, c);
    }
  }

  lemma RejectedConnNext(s: Server, step: ConnStep, c: ConnId)
    requires c in s.conns && s.conns[c].handler == Rejected && ConnOk(s.conns[c]) && s.wg > 0
    ensures var s' := ApplyConn(s, step, c, s.conns[c]);
      c in s'.conns && (s'.conns[c].handler == RejectedExit <==> step == RejectDone)
  {
  }

  // ----- a handshake that succeeded -----

  /** Past its handshake, and not rejected. */
  predicate IsAdmitted(k: Conn) {
    k.handler == AddSession || Started(k.handler)
  }

  lemma AdmittedByHandshake(s: Server, step: Step, c: ConnId)
    requires c in Apply(s, step).conns && IsAdmitted(Apply(s, step).conns[c])
    ensures c in s.conns
    ensures
      || IsAdmitted(s.conns[c])
      || (step == ByConn(c, HandshakeOk) && s.conns[c].handler == Handshake && s.crash == NoCrash)
  {
    if c !in s.conns {
      NewIsAccepted(s, step, c);
    } else if step.ByConn? && step.conn == c && s.crash == NoCrash {
      ConnAdmittedByHandshake(s, step.connStep, c);
    } else {
      OtherConnSame(s, step, c);
    }
  }

  lemma ConnAdmittedByHandshake(s: Server, step: ConnStep, c: ConnId)
    requires c in s.conns
    ensures var s' := ApplyConn(s, step, c, s.conns[c]);
      c in s'.conns
      && (IsAdmitted(s'.conns[c]) && !IsAdmitted(s.conns[c]) ==> step == HandshakeOk && s.conns[c].handler == Handshake)
  {
  }

  lemma {:induction false} AdmittedHasHandshake(steps: seq<Step>, n: nat, c: ConnId) returns (i: nat)
    requires n <= |steps| && c in StateAt(steps, n).conns && IsAdmitted(StateAt(steps, n).conns[c])
    ensures i < n && TakenAt(steps, i, c, HandshakeOk, Handshake)
    decreases n
  {
    assert StateAt(steps, 0) == INIT;
    AtNext(Apply, INIT, steps, n - 1);
    AdmittedByHandshake(StateAt(steps, n - 1), steps[n - 1], c);
    if IsAdmitted(StateAt(steps, n - 1).conns[c]) {
      i := AdmittedHasHandshake(steps, n - 1, c);
    } else {
      i := n - 1;
    }
  }

  /** Only a connection whose handshake has succeeded is served, has a session in the table, or has a PTY. */
  lemma ServedOnlyAfterHandshake(steps: seq<Step>, n: nat, c: ConnId)
    requires n <= |steps| && c in StateAt(steps, n).conns
    requires var s := StateAt(steps, n);
      s.conns[c].handler == Serving || s.conns[c].waiters != [] || exists a :: a in s.table && s.table[a].conn == c
    ensures exists i :: 0 <= i < n && TakenAt(steps, i, c, HandshakeOk, Handshake)
  {
    Reachable(steps[..n]);
    var i := AdmittedHasHandshake(steps, n, c);
  }

  // ----- the Once -----

  predicate SomeoneAtOnce(k: Conn) {
    k.handler == AtOnce || k.handler == Exited || exists i :: 0 <= i < |k.waiters| && k.waiters[i] != Waiting
  }

  /**
   * The cleanup has been begun only if some goroutine of the connection got to it, and no goroutine goes
   * past it before it is done. PTYs belong to channels.
   */
  predicate OnceOk(k: Conn) {
    && (k.once != Fresh ==> SomeoneAtOnce(k))
    && (k.handler == Exited ==> k.once == Finished)
    && (forall i :: 0 <= i < |k.waiters| && k.waiters[i] == WaiterExited ==> k.once == Finished)
    && (k.waiters != [] ==> k.channel.Some?)
  }

  predicate AllOnceOk(s: Server) {
    forall c :: c in s.conns ==> OnceOk(s.conns[c])
  }

  lemma HandlerKeepsOnceOk(s: Server, step: ConnStep, c: ConnId)
    requires c in s.conns && OnceOk(s.conns[c])
    requires IsHandshakeStep(step) || IsServingStep(step) || step.Cleanup?
    ensures var s' := ApplyConn(s, step, c, s.conns[c]); c in s'.conns && OnceOk(s'.conns[c])
  {
    var k := s.conns[c];
    if SomeoneAtOnce(k) && !(k.handler == AtOnce || k.handler == Exited) {
      var i :| 0 <= i < |k.waiters| && k.waiters[i] != Waiting;
      assert ApplyConn(s, step, c, k).conns[c].waiters[i] != Waiting;
    }
  }

  lemma WaiterKeepsOnceOk(s: Server, step: ConnStep, c: ConnId)
    requires c in s.conns && OnceOk(s.conns[c]) && (step.StartPty? || step.CommandExits?)
    ensures var s' := ApplyConn(s, step, c, s.conns[c]); c in s'.conns && OnceOk(s'.conns[c])
  {
    var k := s.conns[c];
    if SomeoneAtOnce(k) && !(k.handler == AtOnce || k.handler == Exited) {
      var i :| 0 <= i < |k.waiters| && k.waiters[i] != Waiting;
      assert ApplyConn(s, step, c, k).conns[c].waiters[i] != Waiting;
    }
  }

  lemma ThreadKeepsOnceOk(s: Server, step: ConnStep, c: ConnId)
    requires c in s.conns && OnceOk(s.conns[c]) && (step.EnterOnce? || step.LeaveOnce?)
    ensures var s' := ApplyConn(s, step, c, s.conns[c]); c in s'.conns && OnceOk(s'.conns[c])
  {
    var k, k' := s.conns[c], ApplyConn(s, step, c, s.conns[c]).conns[c];
    if step.thread.Waiter? && ThreadAtOnce(k, step.thread) {
      assert k'.waiters[step.thread.index] != Waiting;
    }
    if SomeoneAtOnce(k) && !(k.handler == AtOnce || k.handler == Exited) {
      var i :| 0 <= i < |k.waiters| && k.waiters[i] != Waiting;
      assert k'.waiters[i] != Waiting;
    }
  }

  lemma StepKeepsOnceOk(s: Server, step: Step)
    requires AllOnceOk(s)
    ensures AllOnceOk(Apply(s, step))
  {
    forall c | c in Apply(s, step).conns
      ensures OnceOk(Apply(s, step).conns[c])
    {
      if c !in s.conns {
        NewIsAccepted(s, step, c);
      } else if step.ByConn? && step.conn == c && s.crash == NoCrash {
        ConnKeepsOnceOk(s, step.connStep, c);
      } else {
        OtherConnSame(s, step, c);
      }
    }
  }

  lemma ConnKeepsOnceOk(s: Server, step: ConnStep, c: ConnId)
    requires c in s.conns && OnceOk(s.conns[c])
    ensures var s' := ApplyConn(s, step, c, s.conns[c]); c in s'.conns && OnceOk(s'.conns[c])
  {
    if step.StartPty? || step.CommandExits? {
      WaiterKeepsOnceOk(s, step, c);
    } else if step.EnterOnce? || step.LeaveOnce? {
      ThreadKeepsOnceOk(s, step, c);
    } else {
      HandlerKeepsOnceOk(s, step, c);
    }
  }

  lemma OnceOkReached(steps: seq<Step>)
    ensures AllOnceOk(Exec(INIT, steps))
  {
    forall t, e | AllOnceOk(t)
      ensures AllOnceOk(Apply(t, e))
    {
      StepKeepsOnceOk(t, e);
    }
    RunInvariant(Apply, AllOnceOk, INIT, steps);
  }

  /**
   * In every run a handler that was served, and a PTY waiter, end only when the connection's cleanup is
   * done, and the cleanup runs only once one of them has got to it.
   */
  lemma GoroutinesEndAfterCleanup(steps: seq<Step>, c: ConnId)
    ensures var s := Exec(INIT, steps);
      c in s.conns ==>
        var k := s.conns[c];
        && (k.handler == Exited ==> k.once == Finished && k.dones == 1)
        && (forall i :: 0 <= i < |k.waiters| && k.waiters[i] == WaiterExited ==> k.once == Finished && k.dones == 1)
        && (k.once != Fresh ==> SomeoneAtOnce(k))
        && (k.waiters != [] ==> k.channel.Some?)
  {
    Reachable(steps);
    OnceOkReached(steps);
  }

  /** A goroutine that has ended stays so. */
  lemma EndedStaysEnded(steps: seq<Step>, step: Step, c: ConnId, i: nat)
    ensures var s := Exec(INIT, steps);
      c in s.conns ==>
        var k := s.conns[c];
        && c in Apply(s, step).conns
        && var k' := Apply(s, step).conns[c];
        && (k.handler == Exited || k.handler == RejectedExit ==> k'.handler == k.handler)
        && (i < |k.waiters| ==> i < |k'.waiters| && (k.waiters[i] == WaiterExited ==> k'.waiters[i] == WaiterExited))
  {
    var s := Exec(INIT, steps);
    if c in s.conns {
      if step.ByConn? && step.conn == c && s.crash == NoCrash {
        ConnEndedStays(s, step.connStep, c, i);
      } else {
        OtherConnSame(s, step, c);
      }
    }
  }

  lemma ConnEndedStays(s: Server, step: ConnStep, c: ConnId, i: nat)
    requires c in s.conns
    ensures var k, s' := s.conns[c], ApplyConn(s, step, c, s.conns[c]);
      && c in s'.conns
      && (k.handler == Exited || k.handler == RejectedExit ==> s'.conns[c].handler == k.handler)
      && (i < |k.waiters| ==>
            i < |s'.conns[c].waiters| && (k.waiters[i] == WaiterExited ==> s'.conns[c].waiters[i] == WaiterExited))
  {
  }
}
