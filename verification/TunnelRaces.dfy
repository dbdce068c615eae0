/**
 * internal/tunnel/manager.go without the assumption that calls follow each other: `m.cancel` is read and
 * written without a lock, by any number of calls and by the goroutine of each client started. Every
 * access to it, to the store and to the client is one step; a step whose guard does not hold leaves the
 * state alone. `TunnelManager`'s events are the calls that nothing interrupts.
 */
module TunnelRaces {
  import opened Common
  import T = TunnelManager

  type RunId = T.RunId
  /** A goroutine calling ProxySSH, UnProxy or Stop. */
  type Caller = nat

  /** Where a call is, named after the access it makes next. */
  datatype Pc =
    | ToRead
    | ToCount
    | ToAssign(run: RunId)
    | ToRecount
    | ToCollect
    | ToPush(list: seq<T.ProxyCfg>)
    | ToCheck
    | ToCancel
    | ToClear

  /** `clearing` are the failed clients whose goroutine has yet to set `m.cancel` to nil. */
  datatype Race = Race(t: T.Tunnel, calls: map<Caller, Pc>, failed: set<RunId>, clearing: set<RunId>, crashed: bool)

  datatype Step =
    | BeginProxy(caller: Caller, ip: string, port: int)
    | BeginUnProxy(caller: Caller, ip: string, port: int)
    | BeginStop(caller: Caller)
    | Read(caller: Caller)
    | Count(caller: Caller)
    | Assign(caller: Caller)
    | Recount(caller: Caller)
    | Collect(caller: Caller, order: seq<string>)
    | Push(caller: Caller, ok: bool)
    | Check(caller: Caller)
    | Cancel(caller: Caller)
    | Clear(caller: Caller)
    | RunFails(run: RunId)
    | FailClears(run: RunId)

  function Init(device: string): Race {
    Race(T.Init(device), map[], {}, {}, false)
  }

  predicate At(s: Race, c: Caller, pc: Pc) {
    c in s.calls && s.calls[c] == pc
  }

  function Goto(s: Race, c: Caller, pc: Pc): Race {
    s.(calls := s.calls[c := pc])
  }

  function Return(s: Race, c: Caller): Race {
    s.(calls := s.calls - {c})
  }

  function Begin(s: Race, c: Caller, cfgs: T.Store, pc: Pc): Race {
    if c in s.calls then s else Goto(s.(t := s.t.(cfgs := cfgs)), c, pc)
  }

  function Apply(s: Race, step: Step): Race {
    if s.crashed then s
    else
      match step
      case BeginProxy(c, ip, port) =>
        Begin(s, c, s.t.cfgs[T.Key(ip, port) := T.ProxyCfg(s.t.device, ip, port)], ToRead)
      case BeginUnProxy(c, ip, port) => Begin(s, c, s.t.cfgs - {T.Key(ip, port)}, ToRead)
      case BeginStop(c) => Begin(s, c, s.t.cfgs, ToCheck)
      // update
      case Read(c) =>
        if At(s, c, ToRead) then Goto(s, c, if s.t.cancel.None? then ToCount else ToRecount) else s
      case Count(c) =>
        if !At(s, c, ToCount) then s
        else if s.t.cfgs == map[] then Return(s, c)
        else Goto(s.(t := s.t.(live := s.t.live + {s.t.nextRun}, nextRun := s.t.nextRun + 1)), c, ToAssign(s.t.nextRun))
      case Assign(c) =>
        if c in s.calls && s.calls[c].ToAssign?
        then Goto(s.(t := s.t.(cancel := Some(s.calls[c].run))), c, ToCollect) else s
      case Recount(c) =>
        if At(s, c, ToRecount) then Goto(s, c, if s.t.cfgs == map[] then ToCheck else ToCollect) else s
      case Collect(c, order) =>
        if At(s, c, ToCollect) then Goto(s, c, ToPush(T.Listing(s.t.cfgs, order))) else s
      case Push(c, ok) =>
        if c in s.calls && s.calls[c].ToPush?
        then Return(if ok then s.(t := s.t.(pushed := s.calls[c].list)) else s, c) else s
      // Stop; the client's own Close, between the check and the call, changes nothing here
      case Check(c) =>
        if !At(s, c, ToCheck) then s else if s.t.cancel.None? then Return(s, c) else Goto(s, c, ToCancel)
      case Cancel(c) =>
        if !At(s, c, ToCancel) then s
        else if s.t.cancel.None? then s.(crashed := true)
        else Goto(s.(t := s.t.(live := s.t.live - {s.t.cancel.value})), c, ToClear)
      case Clear(c) => if At(s, c, ToClear) then Return(s.(t := s.t.(cancel := None)), c) else s
      // the goroutine of a client whose Run returned an error
      case RunFails(r) =>
        if r < s.t.nextRun && r !in s.failed
        then s.(t := s.t.(live := s.t.live - {r}), failed := s.failed + {r}, clearing := s.clearing + {r}) else s
      case FailClears(r) =>
        if r in s.clearing then s.(t := s.t.(cancel := None), clearing := s.clearing - {r}) else s
  }

  function Exec(s: Race, steps: seq<Step>): Race {
    Run(Apply, s, steps)
  }

  // ----- the panic: calling a nil `m.cancel` -----

  function StateAt(device: string, steps: seq<Step>, i: nat): Race
    requires i <= |steps|
  {
    Exec(Init(device), steps[..i])
  }

  /** What a step can do to the panic, to a Stop between its check and its call, and to `m.cancel`. */
  predicate Frame(s: Race, step: Step, s': Race) {
    && (s.crashed ==> s' == s)
    && (!s.crashed && s'.crashed ==> step.Cancel? && At(s, step.caller, ToCancel) && s.t.cancel.None?)
    && (!s.crashed && step.Cancel? && At(s, step.caller, ToCancel) && s.t.cancel.None? ==> s'.crashed)
    && (forall c :: c in s'.calls && s'.calls[c] == ToCancel && !At(s, c, ToCancel) ==>
          step == Check(c) && At(s, c, ToCheck) && s.t.cancel.Some? && !s.crashed)
    && (s.t.cancel.Some? && s'.t.cancel.None? ==> Clears(s, step))
  }

  /** The step sets `m.cancel` to nil. */
  predicate Clears(s: Race, step: Step) {
    && !s.crashed
    && ((step.Clear? && At(s, step.caller, ToClear)) || (step.FailClears? && step.run in s.clearing))
  }

  lemma StepFrame(s: Race, step: Step)
    ensures Frame(s, step, Apply(s, step))
  {
  }

  lemma StateNext(device: string, steps: seq<Step>, i: nat)
    requires i < |steps|
    ensures StateAt(device, steps, i + 1) == Apply(StateAt(device, steps, i), steps[i])
    ensures Frame(StateAt(device, steps, i), steps[i], StateAt(device, steps, i + 1))
  {
    assert Common.At(Apply, Init(device), steps, i) == StateAt(device, steps, i);
    AtNext(Apply, Init(device), steps, i);
    StepFrame(StateAt(device, steps, i), steps[i]);
  }

  /** At `i` the Stop of caller `c` sees `m.cancel` set. */
  predicate SeesCancel(device: string, steps: seq<Step>, i: nat, c: Caller)
    requires i < |steps|
  {
    var s := StateAt(device, steps, i);
    steps[i] == Check(c) && At(s, c, ToCheck) && s.t.cancel.Some? && !s.crashed
  }

  /** At `k` it calls it. */
  predicate CallsCancel(device: string, steps: seq<Step>, k: nat, c: Caller)
    requires k < |steps|
  {
    steps[k] == Cancel(c) && At(StateAt(device, steps, k), c, ToCancel) && !StateAt(device, steps, k).crashed
  }

  /** From after step `j` until `k` it is nil. */
  predicate NilSince(device: string, steps: seq<Step>, j: nat, k: nat)
    requires k <= |steps|
  {
    forall n :: j < n <= k ==> StateAt(device, steps, n).t.cancel.None?
  }

  /**
   * Some Stop finds `m.cancel` set; before it calls it another call's Stop, or the goroutine of a failed
   * client, sets it to nil, and nobody sets it again in time.
   */
  ghost predicate ClearedInBetween(device: string, steps: seq<Step>) {
    exists i: nat, j: nat, k: nat, c: Caller :: i < j < k < |steps|
      && SeesCancel(device, steps, i, c) && CallsCancel(device, steps, k, c)
      && Clears(StateAt(device, steps, j), steps[j]) && (steps[j].Clear? ==> steps[j].caller != c)
      && NilSince(device, steps, j, k)
  }

  predicate StaysAtCall(device: string, steps: seq<Step>, i: nat, k: nat, c: Caller)
    requires k <= |steps|
  {
    forall n :: i < n <= k ==> At(StateAt(device, steps, n), c, ToCancel)
  }

  lemma {:induction false} CallHasCheck(device: string, steps: seq<Step>, k: nat, c: Caller) returns (i: nat)
    requires k <= |steps| && At(StateAt(device, steps, k), c, ToCancel)
    ensures i < k && SeesCancel(device, steps, i, c) && StaysAtCall(device, steps, i, k, c)
    decreases k
  {
    assert StateAt(device, steps, 0) == Init(device);
    StateNext(device, steps, k - 1);
    if At(StateAt(device, steps, k - 1), c, ToCancel) {
      i := CallHasCheck(device, steps, k - 1, c);
    } else {
      i := k - 1;
    }
  }

  lemma {:induction false} NilHasClear(device: string, steps: seq<Step>, i: nat, k: nat) returns (j: nat)
    requires i < k <= |steps|
    requires StateAt(device, steps, i).t.cancel.Some? && StateAt(device, steps, k).t.cancel.None?
    ensures i <= j < k && Clears(StateAt(device, steps, j), steps[j]) && NilSince(device, steps, j, k)
    decreases k
  {
    StateNext(device, steps, k - 1);
    if StateAt(device, steps, k - 1).t.cancel.Some? {
      j := k - 1;
    } else {
      j := NilHasClear(device, steps, i, k - 1);
    }
  }

  lemma {:induction false} CrashHasCall(device: string, steps: seq<Step>, n: nat) returns (k: nat, c: Caller)
    requires n <= |steps| && StateAt(device, steps, n).crashed
    ensures k < n && CallsCancel(device, steps, k, c) && StateAt(device, steps, k).t.cancel.None?
    decreases n
  {
    assert StateAt(device, steps, 0) == Init(device);
    StateNext(device, steps, n - 1);
    if StateAt(device, steps, n - 1).crashed {
      k, c := CrashHasCall(device, steps, n - 1);
    } else {
      k, c := n - 1, steps[n - 1].caller;
    }
  }

  lemma {:induction false} CrashStays(device: string, steps: seq<Step>, k: nat, n: nat)
    requires k <= n <= |steps| && StateAt(device, steps, k).crashed
    ensures StateAt(device, steps, n).crashed
    decreases n
  {
    if k < n {
      StateNext(device, steps, n - 1);
      CrashStays(device, steps, k, n - 1);
    }
  }

  lemma CrashHasClear(device: string, steps: seq<Step>)
    requires StateAt(device, steps, |steps|).crashed
    ensures ClearedInBetween(device, steps)
  {
    var k, c := CrashHasCall(device, steps, |steps|);
    var i := CallHasCheck(device, steps, k, c);
    var j := NilHasClear(device, steps, i, k);
    assert i != j;
    assert At(StateAt(device, steps, j), c, ToCancel);
  }

  lemma ClearCrashes(device: string, steps: seq<Step>, k: nat, c: Caller)
    requires k < |steps| && CallsCancel(device, steps, k, c) && StateAt(device, steps, k).t.cancel.None?
    ensures StateAt(device, steps, |steps|).crashed
  {
    StateNext(device, steps, k);
    CrashStays(device, steps, k + 1, |steps|);
  }

  /** A run panics if and only if somebody clears `m.cancel` between a Stop's check of it and its call. */
  lemma PanicsExactlyWhenClearedInBetween(device: string, steps: seq<Step>)
    ensures Exec(Init(device), steps).crashed <==> ClearedInBetween(device, steps)
  {
    assert steps[..|steps|] == steps;
    if Exec(Init(device), steps).crashed {
      CrashHasClear(device, steps);
    }
    if ClearedInBetween(device, steps) {
      var i: nat, j: nat, k: nat, c: Caller :| i < j < k < |steps|
        && SeesCancel(device, steps, i, c) && CallsCancel(device, steps, k, c)
        && Clears(StateAt(device, steps, j), steps[j]) && (steps[j].Clear? ==> steps[j].caller != c)
        && NilSince(device, steps, j, k);
      ClearCrashes(device, steps, k, c);
    }
  }

  // ----- one call at a time -----

  predicate BeginsBy(step: Step, a: Caller) {
    match step
    case BeginProxy(c, _, _) => c == a
    case BeginUnProxy(c, _, _) => c == a
    case BeginStop(c) => c == a
    case _ => true
  }

  lemma {:induction false} OneCaller(device: string, steps: seq<Step>, a: Caller, n: nat)
    requires n <= |steps| && forall step :: step in steps ==> BeginsBy(step, a)
    ensures StateAt(device, steps, n).calls.Keys <= {a}
    decreases n
  {
    if n == 0 {
      assert StateAt(device, steps, 0) == Init(device);
    } else {
      OneCaller(device, steps, a, n - 1);
      StateNext(device, steps, n - 1);
      assert steps[n - 1] in steps;
      StepOfOneCaller(StateAt(device, steps, n - 1), steps[n - 1], a);
    }
  }

  lemma StepOfOneCaller(s: Race, step: Step, a: Caller)
    requires s.calls.Keys <= {a} && BeginsBy(step, a)
    ensures Apply(s, step).calls.Keys <= {a}
  {
  }

  /** With calls one at a time, only a client's failure in the middle of a Stop can make it panic. */
  lemma OneAtATimeNeedsFailure(device: string, steps: seq<Step>, a: Caller)
    requires forall step :: step in steps ==> BeginsBy(step, a) && !step.FailClears?
    ensures !Exec(Init(device), steps).crashed
  {
    PanicsExactlyWhenClearedInBetween(device, steps);
    forall j: nat, k: nat, c: Caller | j < |steps| && k < |steps| && CallsCancel(device, steps, k, c)
      ensures Clears(StateAt(device, steps, j), steps[j]) ==> steps[j].Clear? && steps[j].caller == c
    {
      OneCaller(device, steps, a, j);
      OneCaller(device, steps, a, k);
      assert steps[j] in steps;
    }
  }

  // ----- clients that nothing can stop any more -----

  /** The contexts made whose cancel function is on its way into `m.cancel`. */
  function Assigning(s: Race): set<RunId> {
    set c | c in s.calls && s.calls[c].ToAssign? :: s.calls[c].run
  }

  function Current(s: Race): set<RunId> {
    if s.t.cancel.Some? then {s.t.cancel.value} else {}
  }

  /** Every live context is the one `m.cancel` cancels, or is about to be. */
  predicate NoneLeaked(s: Race) {
    s.t.live <= Current(s) + Assigning(s)
  }

  function Used(s: Race): set<RunId> {
    s.t.live + Current(s) + s.failed + s.clearing
  }

  /** Run numbers are used once, and each is assigned by the call that made it. */
  predicate Numbered(s: Race) {
    && (forall r :: r in Used(s) ==> r < s.t.nextRun)
    && (forall c :: c in s.calls && s.calls[c].ToAssign? ==>
          s.calls[c].run < s.t.nextRun && s.calls[c].run !in Current(s))
    && (forall c, d :: c in s.calls && d in s.calls && c != d && s.calls[c].ToAssign? && s.calls[d].ToAssign? ==>
          s.calls[c].run != s.calls[d].run)
  }

  lemma StepKeepsNumbered(s: Race, step: Step)
    requires Numbered(s)
    ensures Numbered(Apply(s, step))
  {
    if step.Count? {
      CountKeepsNumbered(s, step.caller);
    } else if step.Assign? {
      AssignKeepsNumbered(s, step.caller);
    } else {
      OtherStepsNumberLess(s, step);
      LessKeepsNumbered(s, Apply(s, step));
    }
  }

  lemma CountKeepsNumbered(s: Race, c: Caller)
    requires Numbered(s)
    ensures Numbered(Apply(s, Count(c)))
  {
  }

  lemma AssignKeepsNumbered(s: Race, c: Caller)
    requires Numbered(s)
    ensures Numbered(Apply(s, Assign(c)))
  {
  }

  /** No number that was not in use already. */
  predicate NumbersLess(s: Race, s': Race) {
    && s'.t.nextRun == s.t.nextRun && Current(s') <= Current(s)
    && (forall r :: r in Used(s') ==> r in Used(s) || r < s.t.nextRun)
    && (forall c :: c in s'.calls && s'.calls[c].ToAssign? ==> c in s.calls && s.calls[c] == s'.calls[c])
  }

  lemma OtherStepsNumberLess(s: Race, step: Step)
    requires !step.Count? && !step.Assign?
    ensures NumbersLess(s, Apply(s, step))
  {
  }

  lemma LessKeepsNumbered(s: Race, s': Race)
    requires Numbered(s) && NumbersLess(s, s')
    ensures Numbered(s')
  {
  }

  lemma {:induction false} NumberedAlways(device: string, steps: seq<Step>, n: nat)
    requires n <= |steps|
    ensures Numbered(StateAt(device, steps, n))
    decreases n
  {
    if n == 0 {
      assert StateAt(device, steps, 0) == Init(device);
    } else {
      NumberedAlways(device, steps, n - 1);
      StateNext(device, steps, n - 1);
      StepKeepsNumbered(StateAt(device, steps, n - 1), steps[n - 1]);
    }
  }

  /** A client that has failed is not live, and its goroutine clears `m.cancel` only after that. */
  predicate FailedOk(s: Race) {
    s.t.live !! s.failed && s.clearing <= s.failed
  }

  lemma StepKeepsFailed(s: Race, step: Step)
    requires Numbered(s) && FailedOk(s)
    ensures FailedOk(Apply(s, step)) && s.failed <= Apply(s, step).failed
    ensures forall r :: r in Apply(s, step).clearing && r !in s.clearing ==> r !in s.failed
  {
  }

  lemma {:induction false} FailedOkAlways(device: string, steps: seq<Step>, n: nat)
    requires n <= |steps|
    ensures FailedOk(StateAt(device, steps, n))
    decreases n
  {
    if n == 0 {
      assert StateAt(device, steps, 0) == Init(device);
    } else {
      FailedOkAlways(device, steps, n - 1);
      NumberedAlways(device, steps, n - 1);
      StateNext(device, steps, n - 1);
      StepKeepsFailed(StateAt(device, steps, n - 1), steps[n - 1]);
    }
  }

  /** In every run a client fails once at most, clears `m.cancel` once at most, and is dead from its failure on. */
  lemma ClientsFailOnce(device: string, steps: seq<Step>, step: Step, r: RunId)
    ensures var s := Exec(Init(device), steps);
      var s' := Apply(s, step);
      && (r in s.failed ==> r !in s.t.live && r in s'.failed && r !in s'.t.live)
      && (r in s'.clearing && r !in s.clearing ==> r !in s.failed && step == Step.RunFails(r))
  {
    assert steps[..|steps|] == steps;
    FailedOkAlways(device, steps, |steps|);
    NumberedAlways(device, steps, |steps|);
    StepKeepsFailed(Exec(Init(device), steps), step);
  }

  /** The step writes `m.cancel` while the context it cancels is live. */
  predicate Overwrites(s: Race, step: Step) {
    && (Clears(s, step)
        || (!s.crashed && step.Assign? && step.caller in s.calls && s.calls[step.caller].ToAssign?))
    && s.t.cancel.Some? && s.t.cancel.value in s.t.live
  }

  /** What a step does to the live contexts and to those that can be cancelled. */
  lemma AssigningNext(s: Race, step: Step)
    requires Numbered(s) && !s.crashed
    ensures Assigning(Apply(s, step)) ==
      if step.Count? && At(s, step.caller, ToCount) && s.t.cfgs != map[] then Assigning(s) + {s.t.nextRun}
      else if step.Assign? && step.caller in s.calls && s.calls[step.caller].ToAssign?
        then Assigning(s) - {s.calls[step.caller].run}
      else Assigning(s)
  {
    var s' := Apply(s, step);
    forall c | c in s.calls && s.calls[c].ToAssign? && !(step.Assign? && step.caller == c)
      ensures s.calls[c].run in Assigning(s')
    {
      assert c in s'.calls && s'.calls[c] == s.calls[c];
    }
    if step.Count? && At(s, step.caller, ToCount) && s.t.cfgs != map[] {
      assert s'.calls[step.caller] == ToAssign(s.t.nextRun);
    }
  }

  /** A client is lost, running with nothing left to stop it, exactly by such a step. */
  lemma LeaksExactly(s: Race, step: Step)
    requires Numbered(s) && !s.crashed && NoneLeaked(s)
    ensures NoneLeaked(Apply(s, step)) <==> !Overwrites(s, step)
  {
    AssigningNext(s, step);
    if Overwrites(s, step) {
      assert s.t.cancel.value in Apply(s, step).t.live && s.t.cancel.value !in Assigning(s);
    }
  }

  lemma StepWithoutLeak(s: Race, step: Step)
    requires Numbered(s) && NoneLeaked(s)
    ensures NoneLeaked(Apply(s, step)) <==> !Overwrites(s, step)
  {
    if !s.crashed {
      LeaksExactly(s, step);
    }
  }

  /** So a run never has such a client if and only if none of its steps overwrites a live context's cancel. */
  lemma NeverLeaksExactly(device: string, steps: seq<Step>)
    ensures (forall n :: 0 <= n <= |steps| ==> NoneLeaked(StateAt(device, steps, n))) <==>
      (forall n :: 0 <= n < |steps| ==> !Overwrites(StateAt(device, steps, n), steps[n]))
  {
    forall n | 0 <= n < |steps| && NoneLeaked(StateAt(device, steps, n))
      ensures NoneLeaked(StateAt(device, steps, n + 1)) <==> !Overwrites(StateAt(device, steps, n), steps[n])
    {
      NumberedAlways(device, steps, n);
      StateNext(device, steps, n);
      StepWithoutLeak(StateAt(device, steps, n), steps[n]);
    }
    if forall n :: 0 <= n < |steps| ==> !Overwrites(StateAt(device, steps, n), steps[n]) {
      NoOverwriteNoLeak(device, steps, |steps|);
    }
    if forall n :: 0 <= n <= |steps| ==> NoneLeaked(StateAt(device, steps, n)) {
      forall n | 0 <= n < |steps|
        ensures !Overwrites(StateAt(device, steps, n), steps[n])
      {
        assert NoneLeaked(StateAt(device, steps, n)) && NoneLeaked(StateAt(device, steps, n + 1));
      }
    }
  }

  lemma {:induction false} NoOverwriteNoLeak(device: string, steps: seq<Step>, m: nat)
    requires m <= |steps| && forall n :: 0 <= n < |steps| ==> !Overwrites(StateAt(device, steps, n), steps[n])
    ensures forall n :: 0 <= n <= m ==> NoneLeaked(StateAt(device, steps, n))
    decreases m
  {
    if m == 0 {
      assert StateAt(device, steps, 0) == Init(device);
    } else {
      NoOverwriteNoLeak(device, steps, m - 1);
      NumberedAlways(device, steps, m - 1);
      StateNext(device, steps, m - 1);
      StepWithoutLeak(StateAt(device, steps, m - 1), steps[m - 1]);
    }
  }

  // ----- runs that get there -----

  lemma Then(s0: Race, s: Race, step: Step, s': Race)
    requires Reaches(Apply, s0, s) && Apply(s, step) == s'
    ensures Reaches(Apply, s0, s')
  {
    ReachesNext(Apply, s0, s, step);
  }

  const CFGS: T.Store := map[T.Key("a", 1) := T.ProxyCfg("device", "a", 1)]
  /** One client started by caller 0. */
  const ASSIGNED := Race(T.Tunnel("device", CFGS, Some(0), {0}, 1, []), map[0 := ToCollect], {}, {}, false)

  lemma ReachAssigned()
    ensures Reaches(Apply, Init("device"), ASSIGNED)
  {
    var s0 := Init("device");
    ReachesSelf(Apply, s0);
    var s1 := s0.(t := s0.t.(cfgs := CFGS), calls := map[0 := ToRead]);
    Then(s0, s0, BeginProxy(0, "a", 1), s1);
    Then(s0, s1, Read(0), s1.(calls := map[0 := ToCount]));
    var s2 := s1.(t := s1.t.(live := {0}, nextRun := 1), calls := map[0 := ToAssign(0)]);
    assert T.Key("a", 1) in CFGS;
    Then(s0, s1.(calls := map[0 := ToCount]), Count(0), s2);
    Then(s0, s2, Assign(0), ASSIGNED);
  }

  /** Caller 1's Stop is past its check. */
  const CHECKED := ASSIGNED.(calls := map[0 := ToCollect, 1 := ToCancel])
  /** The client has failed since, and its goroutine has cleared `m.cancel`. */
  const CLEARED := CHECKED.(t := CHECKED.t.(live := {}, cancel := None), failed := {0})

  lemma ReachChecked()
    ensures Reaches(Apply, Init("device"), CHECKED)
  {
    ReachAssigned();
    var s := ASSIGNED.(calls := map[0 := ToCollect, 1 := ToCheck]);
    Then(Init("device"), ASSIGNED, BeginStop(1), s);
    Then(Init("device"), s, Check(1), CHECKED);
  }

  lemma ReachCleared()
    ensures Reaches(Apply, Init("device"), CLEARED)
  {
    ReachChecked();
    var s := CHECKED.(t := CHECKED.t.(live := {}), failed := {0}, clearing := {0});
    Then(Init("device"), CHECKED, RunFails(0), s);
    Then(Init("device"), s, FailClears(0), CLEARED);
  }

  /** A client that fails while a Stop is between its check and its call makes the Stop call nil. */
  lemma FailureDuringStopPanics()
    ensures exists steps :: Exec(Init("device"), steps).crashed
  {
    ReachCleared();
    Then(Init("device"), CLEARED, Cancel(1), CLEARED.(crashed := true));
    var steps :| Run(Apply, Init("device"), steps) == CLEARED.(crashed := true);
    assert Exec(Init("device"), steps).crashed;
  }

  /** Both of two first calls have seen nil. */
  lemma ReachBothRead() returns (s: Race)
    ensures Reaches(Apply, Init("device"), s)
    ensures s.t == Init("device").t.(cfgs := s.t.cfgs) && s.t.cfgs != map[]
    ensures s.calls == map[0 := ToCount, 1 := ToCount] && !s.crashed
  {
    var s0 := Init("device");
    ReachesSelf(Apply, s0);
    var s1 := s0.(t := s0.t.(cfgs := CFGS), calls := map[0 := ToRead]);
    Then(s0, s0, BeginProxy(0, "a", 1), s1);
    var cfgs := CFGS[T.Key("b", 2) := T.ProxyCfg("device", "b", 2)];
    assert T.Key("b", 2) in cfgs;
    s := s0.(t := s0.t.(cfgs := cfgs), calls := map[0 := ToRead, 1 := ToRead]);
    Then(s0, s1, BeginProxy(1, "b", 2), s);
    Then(s0, s, Read(0), s.(calls := map[0 := ToCount, 1 := ToRead]));
    Then(s0, s.(calls := map[0 := ToCount, 1 := ToRead]), Read(1), s.(calls := map[0 := ToCount, 1 := ToCount]));
    s := s.(calls := map[0 := ToCount, 1 := ToCount]);
  }

  /** And each has made its context. */
  lemma ReachBothCounted() returns (s: Race)
    ensures Reaches(Apply, Init("device"), s)
    ensures s.t.live == {0, 1} && s.calls == map[0 := ToAssign(0), 1 := ToAssign(1)] && !s.crashed
  {
    var s0 := Init("device");
    s := ReachBothRead();
    var s1 := s.(t := s.t.(live := {0}, nextRun := 1), calls := map[0 := ToAssign(0), 1 := ToCount]);
    Then(s0, s, Count(0), s1);
    s := s.(t := s.t.(live := {0, 1}, nextRun := 2), calls := map[0 := ToAssign(0), 1 := ToAssign(1)]);
    Then(s0, s1, Count(1), s);
  }

  /** Two overlapping first ProxySSH calls start two clients, and only the second can be stopped. */
  lemma OverlappingProxiesLeak()
    ensures exists steps :: var s := Exec(Init("device"), steps);
      s.t.live == {0, 1} && s.t.cancel == Some(1) && Assigning(s) == {} && !s.crashed
  {
    var s0 := Init("device");
    var s := ReachBothCounted();
    var s1 := s.(t := s.t.(cancel := Some(0)), calls := map[0 := ToCollect, 1 := ToAssign(1)]);
    Then(s0, s, Assign(0), s1);
    var s2 := s.(t := s.t.(cancel := Some(1)), calls := map[0 := ToCollect, 1 := ToCollect]);
    Then(s0, s1, Assign(1), s2);
    var steps :| Run(Apply, s0, steps) == s2;
    assert Exec(s0, steps) == s2;
  }

  // ----- the atomic events are the calls nothing interrupts -----

  /** No call is in progress and no failed client's goroutine either. */
  predicate Quiet(s: Race) {
    s.calls == map[] && s.clearing == {} && !s.crashed && Numbered(s)
  }

  predicate Changes(e: T.Event) {
    e.ProxySSH? || e.UnProxy?
  }

  /** A step of the one call `e` made by caller 0, or of the failure it speaks of. */
  predicate Within(step: Step, e: T.Event) {
    match step
    case BeginProxy(c, ip, port) => c == 0 && e.ProxySSH? && e.ip == ip && e.port == port
    case BeginUnProxy(c, ip, port) => c == 0 && e.UnProxy? && e.ip == ip && e.port == port
    case BeginStop(c) => c == 0 && e.Stop?
    case Collect(c, order) => c == 0 && Changes(e) && order == e.env.order
    case Push(c, ok) => c == 0 && Changes(e) && ok == e.env.pushOk
    case RunFails(r) => (e.RunFails? && e.run == r) || (Changes(e) && e.env.failsEarly)
    case FailClears(r) => (e.RunFails? && e.run == r) || (Changes(e) && e.env.failsEarly)
    case _ => step.caller == 0
  }

  /** The steps of `e`, and no others, lead from `s0` to `s`. */
  ghost predicate LeadsTo(s0: Race, e: T.Event, s: Race) {
    exists steps :: (forall step :: step in steps ==> Within(step, e)) && Exec(s0, steps) == s
  }

  lemma LeadsNowhere(s: Race, e: T.Event)
    ensures LeadsTo(s, e, s)
  {
    assert Exec(s, []) == s;
  }

  lemma OneMore(s0: Race, e: T.Event, s: Race, step: Step, s': Race)
    requires LeadsTo(s0, e, s) && Within(step, e) && Apply(s, step) == s'
    ensures LeadsTo(s0, e, s')
  {
    var steps :| (forall x :: x in steps ==> Within(x, e)) && Exec(s0, steps) == s;
    RunAppend(Apply, s0, steps, [step]);
    RunOne(Apply, s, step);
    assert Exec(s0, steps + [step]) == s';
  }

  lemma StartIsRun(s0: Race, s: Race, e: T.Event)
    requires Changes(e) && LeadsTo(s0, e, s) && Quiet(s.(calls := map[])) && s.calls == map[0 := ToCount]
    requires s.t.cancel.None? && s.t.cfgs != map[]
    ensures LeadsTo(s0, e, s.(t := T.Started(s.t, e.env), calls := map[0 := ToCollect],
                              failed := if e.env.failsEarly then s.failed + {s.t.nextRun} else s.failed))
  {
    var r := s.t.nextRun;
    var s1 := s.(t := s.t.(live := s.t.live + {r}, nextRun := r + 1), calls := map[0 := ToAssign(r)]);
    OneMore(s0, e, s, Count(0), s1);
    var s2 := s1;
    if e.env.failsEarly {
      FailureIsRun(s0, s1, e, r);
      s2 := s1.(t := s1.t.(live := s.t.live), failed := s.failed + {r});
      assert s1.t.live - {r} == s.t.live;
    }
    OneMore(s0, e, s2, Assign(0), s2.(t := s2.t.(cancel := Some(r)), calls := map[0 := ToCollect]));
  }

  lemma FailureIsRun(s0: Race, s: Race, e: T.Event, r: RunId)
    requires LeadsTo(s0, e, s) && !s.crashed && s.clearing == {} && r < s.t.nextRun && r !in s.failed
    requires (e.RunFails? && e.run == r) || (Changes(e) && e.env.failsEarly)
    ensures LeadsTo(s0, e, s.(t := s.t.(cancel := None, live := s.t.live - {r}), failed := s.failed + {r}))
  {
    var s1 := s.(t := s.t.(live := s.t.live - {r}), failed := s.failed + {r}, clearing := {r});
    OneMore(s0, e, s, Step.RunFails(r), s1);
    OneMore(s0, e, s1, FailClears(r), s1.(t := s1.t.(cancel := None), clearing := {}));
  }

  lemma ReloadIsRun(s0: Race, s: Race, e: T.Event)
    requires Changes(e) && LeadsTo(s0, e, s) && !s.crashed && s.calls == map[0 := ToCollect]
    ensures LeadsTo(s0, e, s.(t := T.Reloaded(s.t, e.env), calls := map[]))
  {
    var s1 := s.(calls := map[0 := ToPush(T.Listing(s.t.cfgs, e.env.order))]);
    OneMore(s0, e, s, Collect(0, e.env.order), s1);
    assert s1.calls - {0} == map[];
    OneMore(s0, e, s1, Push(0, e.env.pushOk), s.(t := T.Reloaded(s.t, e.env), calls := map[]));
  }

  lemma StopIsRun(s0: Race, s: Race, e: T.Event)
    requires LeadsTo(s0, e, s) && !s.crashed && s.calls == map[0 := ToCheck]
    ensures LeadsTo(s0, e, s.(t := T.Stopped(s.t), calls := map[]))
  {
    if s.t.cancel.None? {
      assert s.calls - {0} == map[];
      OneMore(s0, e, s, Check(0), s.(calls := map[]));
    } else {
      OneMore(s0, e, s, Check(0), s.(calls := map[0 := ToCancel]));
      CancelAndClear(s0, s.(calls := map[0 := ToCancel]), e);
    }
  }

  lemma CancelAndClear(s0: Race, s: Race, e: T.Event)
    requires LeadsTo(s0, e, s) && !s.crashed && s.calls == map[0 := ToCancel] && s.t.cancel.Some?
    ensures LeadsTo(s0, e, s.(t := T.Stopped(s.t), calls := map[]))
  {
    var s1 := s.(t := s.t.(live := s.t.live - {s.t.cancel.value}), calls := map[0 := ToClear]);
    OneMore(s0, e, s, Cancel(0), s1);
    assert s1.calls - {0} == map[];
    OneMore(s0, e, s1, Clear(0), s.(t := T.Stopped(s.t), calls := map[]));
  }

  /** `update` without interruption, in each of its four cases. */
  lemma UpdateIsRun(s0: Race, s: Race, e: T.Event) returns (s': Race)
    requires Changes(e) && LeadsTo(s0, e, s) && Quiet(s.(calls := map[])) && s.calls == map[0 := ToRead]
    ensures LeadsTo(s0, e, s') && s'.t == T.Updated(s.t, e.env)
    ensures s'.calls == map[] && s'.clearing == {} && !s'.crashed
  {
    if s.t.cancel.None? {
      var s1 := s.(calls := map[0 := ToCount]);
      OneMore(s0, e, s, Read(0), s1);
      if s.t.cfgs == map[] {
        s' := s.(calls := map[]);
        assert s1.calls - {0} == map[];
        OneMore(s0, e, s1, Count(0), s');
      } else {
        StartIsRun(s0, s1, e);
        s' := s1.(t := T.Started(s.t, e.env), calls := map[0 := ToCollect],
                  failed := if e.env.failsEarly then s.failed + {s.t.nextRun} else s.failed);
        ReloadIsRun(s0, s', e);
        s' := s'.(t := T.Reloaded(s'.t, e.env), calls := map[]);
      }
    } else {
      s' := RestartIsRun(s0, s, e);
    }
  }

  lemma RestartIsRun(s0: Race, s: Race, e: T.Event) returns (s': Race)
    requires Changes(e) && LeadsTo(s0, e, s) && !s.crashed && s.clearing == {} && s.calls == map[0 := ToRead]
    requires s.t.cancel.Some?
    ensures LeadsTo(s0, e, s') && s'.t == T.Updated(s.t, e.env)
    ensures s'.calls == map[] && s'.clearing == {} && !s'.crashed
  {
    var s1 := s.(calls := map[0 := ToRecount]);
    OneMore(s0, e, s, Read(0), s1);
    if s.t.cfgs == map[] {
      OneMore(s0, e, s1, Recount(0), s.(calls := map[0 := ToCheck]));
      StopIsRun(s0, s.(calls := map[0 := ToCheck]), e);
      s' := s.(t := T.Stopped(s.t), calls := map[]);
    } else {
      OneMore(s0, e, s1, Recount(0), s.(calls := map[0 := ToCollect]));
      ReloadIsRun(s0, s.(calls := map[0 := ToCollect]), e);
      s' := s.(t := T.Reloaded(s.t, e.env), calls := map[]);
    }
  }

  lemma CallIsRun(s: Race, e: T.Event) returns (s': Race)
    requires Quiet(s) && Changes(e)
    ensures LeadsTo(s, e, s') && s'.t == T.Apply(s.t, e) && s'.calls == map[] && s'.clearing == {} && !s'.crashed
  {
    var s1 := s.(t := s.t.(cfgs := T.Changed(s.t, e)), calls := map[0 := ToRead]);
    LeadsNowhere(s, e);
    if e.ProxySSH? {
      OneMore(s, e, s, BeginProxy(0, e.ip, e.port), s1);
    } else {
      OneMore(s, e, s, BeginUnProxy(0, e.ip, e.port), s1);
    }
    s' := UpdateIsRun(s, s1, e);
  }

  /**
   * Each event of `TunnelManager`, an early failure of the client it starts included, is a run of the
   * single steps of that call between two quiet states: its theorems are about calls that do not overlap.
   */
  lemma EventIsRun(s: Race, e: T.Event) returns (s': Race)
    requires Quiet(s) && (e.RunFails? ==> e.run < s.t.nextRun && e.run !in s.failed)
    ensures LeadsTo(s, e, s') && Quiet(s') && s'.t == T.Apply(s.t, e)
  {
    LeadsNowhere(s, e);
    match e
    case Stop =>
      OneMore(s, e, s, BeginStop(0), s.(calls := map[0 := ToCheck]));
      StopIsRun(s, s.(calls := map[0 := ToCheck]), e);
      s' := s.(t := T.Stopped(s.t), calls := map[]);
    case RunFails(r) =>
      FailureIsRun(s, s, e, r);
      s' := s.(t := T.Apply(s.t, e), failed := s.failed + {r});
    case _ =>
      s' := CallIsRun(s, e);
    LedToIsNumbered(s, e, s');
  }

  lemma LedToIsNumbered(s: Race, e: T.Event, s': Race)
    requires Numbered(s) && LeadsTo(s, e, s')
    ensures Numbered(s')
  {
    var steps :| (forall x :: x in steps ==> Within(x, e)) && Exec(s, steps) == s';
    forall t, x | Numbered(t)
      ensures Numbered(Apply(t, x))
    {
      StepKeepsNumbered(t, x);
    }
    RunInvariant(Apply, Numbered, s, steps);
  }
}
