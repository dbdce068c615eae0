/**
 * internal/remote_commands/command_manager.go and the context handling of command.go as a machine of
 * labelled steps: AddCommand and RemoveCommand are sequences of separate store and context operations,
 * interleaved at each of them. A step whose guard does not hold leaves the state alone. A command's own
 * goroutine waits for its context and then cancels it once more, which changes nothing here.
 */
module CommandManager {
  import opened Common

  type Id = string
  /** A `*Command`. */
  type Ref = nat
  /** A goroutine calling AddCommand or RemoveCommand. */
  type Caller = nat

  datatype Context = NoContext | Live | Cancelled

  /** `spawned`: the goroutine running `cmd.Start` has been started. */
  datatype Command = Command(id: Id, ctx: Context, spawned: bool)

  /** Where a call of AddCommand is: past Has, past getContext, past Set. */
  datatype Adding = Absent(cmd: Ref) | HasContext(cmd: Ref) | Stored(cmd: Ref)

  /** Where a call of RemoveCommand is: past GetOk, past cancel. */
  datatype Removing = Found(id: Id, cmd: Ref) | CancelCalled(id: Id, cmd: Ref)

  datatype Manager = Manager(store: map<Id, Ref>, cmds: map<Ref, Command>,
                             adders: map<Caller, Adding>, removers: map<Caller, Removing>)

  const INIT := Manager(map[], map[], map[], map[])

  datatype Step =
    | Has(caller: Caller, id: Id, cmd: Ref)
    | GetContext(caller: Caller)
    | Set(caller: Caller)
    | Spawn(caller: Caller)
    | GetOk(caller: Caller, id: Id)
    | Cancel(caller: Caller)
    | Remove(caller: Caller)

  /** The effect of calling a command's `cancel`, if it has one. */
  function WithCancelled(c: Command): Command {
    if c.ctx == Live then c.(ctx := Cancelled) else c
  }

  function Apply(m: Manager, step: Step): Manager {
    match step
    // AddCommand
    case Has(a, id, r) =>
      if a in m.adders || r in m.cmds || id in m.store then m
      else m.(cmds := m.cmds[r := Command(id, NoContext, false)], adders := m.adders[a := Absent(r)])
    case GetContext(a) =>
      if a in m.adders && m.adders[a].Absent? && m.adders[a].cmd in m.cmds
      then var r := m.adders[a].cmd;
        m.(cmds := m.cmds[r := if m.cmds[r].ctx == NoContext then m.cmds[r].(ctx := Live) else m.cmds[r]],
           adders := m.adders[a := HasContext(r)])
      else m
    case Set(a) =>
      if a in m.adders && m.adders[a].HasContext? && m.adders[a].cmd in m.cmds
      then var r := m.adders[a].cmd; m.(store := m.store[m.cmds[r].id := r], adders := m.adders[a := Stored(r)])
      else m
    case Spawn(a) =>
      if a in m.adders && m.adders[a].Stored? && m.adders[a].cmd in m.cmds
      then var r := m.adders[a].cmd; m.(cmds := m.cmds[r := m.cmds[r].(spawned := true)], adders := m.adders - {a})
      else m
    // RemoveCommand
    case GetOk(c, id) =>
      if c in m.removers || id !in m.store then m else m.(removers := m.removers[c := Found(id, m.store[id])])
    case Cancel(c) =>
      if c in m.removers && m.removers[c].Found? && m.removers[c].cmd in m.cmds
      then var x := m.removers[c];
        m.(cmds := m.cmds[x.cmd := WithCancelled(m.cmds[x.cmd])],
           removers := m.removers[c := CancelCalled(x.id, x.cmd)])
      else m
    case Remove(c) =>
      if c in m.removers && m.removers[c].CancelCalled?
      then m.(store := m.store - {m.removers[c].id}, removers := m.removers - {c})
      else m
  }

  function Exec(m: Manager, steps: seq<Step>): Manager {
    Run(Apply, m, steps)
  }

  // ----- what the manager is for -----

  predicate Active(c: Command) {
    c.spawned && c.ctx != Cancelled
  }

  predicate Holds(store: map<Id, Ref>, id: Id, r: Ref) {
    id in store && store[id] == r
  }

  /** Every spawned command is in the store under its own ID, where RemoveCommand and Stop find it, or is cancelled. */
  predicate NoneLost(m: Manager) {
    forall r :: r in m.cmds && Active(m.cmds[r]) ==> Holds(m.store, m.cmds[r].id, r)
  }

  /** The store's keys are the IDs of the commands it holds. */
  predicate StoreOk(m: Manager) {
    && (forall id :: id in m.store ==> m.store[id] in m.cmds && m.cmds[m.store[id]].id == id)
    && (forall id :: id in m.store ==> m.cmds[m.store[id]].ctx != NoContext)
    && (forall a :: a in m.adders ==> m.adders[a].cmd in m.cmds)
    && (forall a :: a in m.adders && !m.adders[a].Absent? ==> m.cmds[m.adders[a].cmd].ctx != NoContext)
    && (forall r :: r in m.removers ==> m.removers[r].cmd in m.cmds && m.cmds[m.removers[r].cmd].id == m.removers[r].id
                                        && m.cmds[m.removers[r].cmd].ctx != NoContext)
  }

  lemma StepKeepsStoreOk(m: Manager, step: Step)
    requires StoreOk(m)
    ensures StoreOk(Apply(m, step))
  {
  }

  /** In every run, with any number of adders and removers, the store's keys are the IDs of its commands. */
  lemma KeysAreIds(steps: seq<Step>)
    ensures StoreOk(Exec(INIT, steps))
  {
    forall t, e | StoreOk(t)
      ensures StoreOk(Apply(t, e))
    {
      StepKeepsStoreOk(t, e);
    }
    RunInvariant(Apply, StoreOk, INIT, steps);
  }

  /** No two uncancelled spawned commands share an ID. */
  lemma OneActivePerId(m: Manager, r: Ref, q: Ref)
    requires NoneLost(m) && r in m.cmds && q in m.cmds && Active(m.cmds[r]) && Active(m.cmds[q])
    requires m.cmds[r].id == m.cmds[q].id
    ensures r == q
  {
  }

  /**
   * The steps that lose a command: storing over an active one, removing an active one from the store,
   * and starting one that is no longer in the store and was not cancelled.
   */
  predicate Loses(m: Manager, step: Step) {
    match step
    case Set(a) =>
      a in m.adders && m.adders[a].HasContext? && m.adders[a].cmd in m.cmds
      && var r := m.adders[a].cmd;
        m.cmds[r].id in m.store && m.store[m.cmds[r].id] != r
        && m.store[m.cmds[r].id] in m.cmds && Active(m.cmds[m.store[m.cmds[r].id]])
    case Remove(c) =>
      c in m.removers && m.removers[c].CancelCalled?
      && var id := m.removers[c].id; id in m.store && m.store[id] in m.cmds && Active(m.cmds[m.store[id]])
    case Spawn(a) =>
      a in m.adders && m.adders[a].Stored? && m.adders[a].cmd in m.cmds
      && var r := m.adders[a].cmd; m.cmds[r].ctx != Cancelled && !Holds(m.store, m.cmds[r].id, r)
    case _ => false
  }

  /** Those and no other steps break it. */
  lemma LostExactly(m: Manager, step: Step)
    requires StoreOk(m) && NoneLost(m)
    ensures NoneLost(Apply(m, step)) <==> !Loses(m, step)
  {
    var m' := Apply(m, step);
    if Loses(m, step) {
      match step
      case Set(a) => assert Active(m'.cmds[m.store[m.cmds[m.adders[a].cmd].id]]);
      case Remove(c) => assert Active(m'.cmds[m.store[m.removers[c].id]]);
      case Spawn(a) => assert Active(m'.cmds[m.adders[a].cmd]);
    }
  }

  // ----- calls that do not overlap on an ID -----

  /** The call that this step begins overlaps no call of the same kind for the same ID. */
  predicate NoOverlap(m: Manager, step: Step) {
    match step
    case Has(a, id, _) =>
      forall b :: b in m.adders && b != a && m.adders[b].cmd in m.cmds ==> m.cmds[m.adders[b].cmd].id != id
    case GetOk(c, id) => forall d :: d in m.removers && d != c ==> m.removers[d].id != id
    case _ => true
  }

  predicate NoOverlaps(m: Manager, steps: seq<Step>)
    decreases |steps|
  {
    steps == [] || (NoOverlap(m, steps[0]) && NoOverlaps(Apply(m, steps[0]), steps[1..]))
  }

  /** Before Set the ID is not in the store; after it the command is there, or has been cancelled. */
  predicate AdderOk(m: Manager, x: Adding) {
    && x.cmd in m.cmds && !m.cmds[x.cmd].spawned
    && (if x.Stored? then m.cmds[x.cmd].ctx == Cancelled || Holds(m.store, m.cmds[x.cmd].id, x.cmd)
        else m.cmds[x.cmd].ctx != Cancelled && m.cmds[x.cmd].id !in m.store)
  }

  /** The command found stays in the store until Remove. */
  predicate RemoverOk(m: Manager, x: Removing) {
    Holds(m.store, x.id, x.cmd) && x.cmd in m.cmds && (x.CancelCalled? ==> m.cmds[x.cmd].ctx == Cancelled)
  }

  predicate AddersApart(m: Manager) {
    forall a, b :: a in m.adders && b in m.adders && a != b
                   && m.adders[a].cmd in m.cmds && m.adders[b].cmd in m.cmds ==>
      m.cmds[m.adders[a].cmd].id != m.cmds[m.adders[b].cmd].id
  }

  predicate RemoversApart(m: Manager) {
    forall c, d :: c in m.removers && d in m.removers && c != d ==> m.removers[c].id != m.removers[d].id
  }

  predicate Orderly(m: Manager) {
    && (forall a :: a in m.adders ==> AdderOk(m, m.adders[a]))
    && (forall c :: c in m.removers ==> RemoverOk(m, m.removers[c]))
    && AddersApart(m) && RemoversApart(m)
  }

  lemma HasKeepsOrderly(m: Manager, a: Caller, id: Id, r: Ref)
    requires StoreOk(m) && Orderly(m) && NoOverlap(m, Has(a, id, r))
    ensures Orderly(Apply(m, Has(a, id, r)))
  {
    assert forall b :: b in m.adders ==> AdderOk(m, m.adders[b]);
  }

  lemma GetContextKeepsOrderly(m: Manager, a: Caller)
    requires StoreOk(m) && Orderly(m)
    ensures Orderly(Apply(m, GetContext(a)))
  {
    assert forall b :: b in m.adders ==> AdderOk(m, m.adders[b]);
  }

  lemma SetKeepsOrderly(m: Manager, a: Caller)
    requires StoreOk(m) && Orderly(m)
    ensures Orderly(Apply(m, Set(a)))
  {
    assert forall b :: b in m.adders ==> AdderOk(m, m.adders[b]);
    assert forall c :: c in m.removers ==> RemoverOk(m, m.removers[c]);
  }

  lemma SpawnKeepsOrderly(m: Manager, a: Caller)
    requires StoreOk(m) && Orderly(m)
    ensures Orderly(Apply(m, Spawn(a)))
  {
    assert forall b :: b in m.adders ==> AdderOk(m, m.adders[b]);
  }

  lemma GetOkKeepsOrderly(m: Manager, c: Caller, id: Id)
    requires StoreOk(m) && Orderly(m) && NoOverlap(m, GetOk(c, id))
    ensures Orderly(Apply(m, GetOk(c, id)))
  {
    var m' := Apply(m, GetOk(c, id));
    assert forall b :: b in m.adders ==> AdderOk(m, m.adders[b]);
    assert AddersApart(m');
  }

  lemma CancelKeepsOrderly(m: Manager, c: Caller)
    requires StoreOk(m) && Orderly(m)
    ensures Orderly(Apply(m, Cancel(c)))
  {
    assert forall b :: b in m.adders ==> AdderOk(m, m.adders[b]);
    assert forall d :: d in m.removers ==> RemoverOk(m, m.removers[d]);
  }

  lemma RemoveKeepsOrderly(m: Manager, c: Caller)
    requires StoreOk(m) && Orderly(m)
    ensures Orderly(Apply(m, Remove(c)))
  {
    assert forall b :: b in m.adders ==> AdderOk(m, m.adders[b]);
    assert forall d :: d in m.removers ==> RemoverOk(m, m.removers[d]);
  }

  lemma StepKeepsOrderly(m: Manager, step: Step)
    requires StoreOk(m) && Orderly(m) && NoOverlap(m, step)
    ensures Orderly(Apply(m, step))
  {
    match step
    case Has(a, id, r) => HasKeepsOrderly(m, a, id, r);
    case GetContext(a) => GetContextKeepsOrderly(m, a);
    case Set(a) => SetKeepsOrderly(m, a);
    case Spawn(a) => SpawnKeepsOrderly(m, a);
    case GetOk(c, id) => GetOkKeepsOrderly(m, c, id);
    case Cancel(c) => CancelKeepsOrderly(m, c);
    case Remove(c) => RemoveKeepsOrderly(m, c);
  }

  lemma OrderlyLosesNone(m: Manager, step: Step)
    requires StoreOk(m) && Orderly(m)
    ensures !Loses(m, step)
  {
    assert step.Set? || step.Spawn? ==> step.caller in m.adders ==> AdderOk(m, m.adders[step.caller]);
    assert step.Remove? ==> step.caller in m.removers ==> RemoverOk(m, m.removers[step.caller]);
  }

  lemma {:induction false} RunStaysOrderly(m: Manager, steps: seq<Step>)
    requires StoreOk(m) && Orderly(m) && NoneLost(m) && NoOverlaps(m, steps)
    ensures NoneLost(Exec(m, steps))
    decreases |steps|
  {
    if steps != [] {
      StepKeepsStoreOk(m, steps[0]);
      StepKeepsOrderly(m, steps[0]);
      OrderlyLosesNone(m, steps[0]);
      LostExactly(m, steps[0]);
      RunStaysOrderly(Apply(m, steps[0]), steps[1..]);
    }
  }

  /**
   * With any number of adders and removers, as long as no two AddCommands of one ID overlap and no two
   * RemoveCommands of one ID do, every spawned command is in the store under its own ID or cancelled,
   * and at most one uncancelled one exists per ID.
   */
  lemma NoOverlapLosesNothing(steps: seq<Step>, r: Ref, q: Ref)
    requires NoOverlaps(INIT, steps)
    ensures var m := Exec(INIT, steps);
      && NoneLost(m)
      && (r in m.cmds && q in m.cmds && Active(m.cmds[r]) && Active(m.cmds[q]) && m.cmds[r].id == m.cmds[q].id ==>
            r == q)
  {
    RunStaysOrderly(INIT, steps);
    var m := Exec(INIT, steps);
    if r in m.cmds && q in m.cmds && Active(m.cmds[r]) && Active(m.cmds[q]) && m.cmds[r].id == m.cmds[q].id {
      OneActivePerId(m, r, q);
    }
  }

  // ----- one adder and one remover -----

  /** AddCommand calls do not overlap each other (all are by caller `a`), nor do RemoveCommand calls (by `c`). */
  predicate ByTwo(step: Step, a: Caller, c: Caller) {
    match step
    case Has(x, _, _) => x == a
    case GetOk(x, _) => x == c
    case _ => true
  }

  lemma StepOfTwo(m: Manager, step: Step, a: Caller, c: Caller)
    requires m.adders.Keys <= {a} && m.removers.Keys <= {c} && ByTwo(step, a, c)
    ensures NoOverlap(m, step)
    ensures Apply(m, step).adders.Keys <= {a} && Apply(m, step).removers.Keys <= {c}
  {
  }

  lemma {:induction false} TwoNeverOverlap(m: Manager, steps: seq<Step>, a: Caller, c: Caller)
    requires m.adders.Keys <= {a} && m.removers.Keys <= {c}
    requires forall step :: step in steps ==> ByTwo(step, a, c)
    ensures NoOverlaps(m, steps)
    decreases |steps|
  {
    if steps != [] {
      assert steps[0] in steps;
      StepOfTwo(m, steps[0], a, c);
      TwoNeverOverlap(Apply(m, steps[0]), steps[1..], a, c);
    }
  }

  /** In particular with AddCommands one at a time and RemoveCommands one at a time, interleaved with each other. */
  lemma AddersAndRemoversLoseNothing(steps: seq<Step>, a: Caller, c: Caller)
    requires forall step :: step in steps ==> ByTwo(step, a, c)
    ensures var m := Exec(INIT, steps);
      && NoneLost(m)
      && forall r, q :: (r in m.cmds && q in m.cmds && Active(m.cmds[r]) && Active(m.cmds[q])
                         && m.cmds[r].id == m.cmds[q].id) ==> r == q
  {
    TwoNeverOverlap(INIT, steps, a, c);
    forall r, q
      ensures var m := Exec(INIT, steps);
        && NoneLost(m)
        && (r in m.cmds && q in m.cmds && Active(m.cmds[r]) && Active(m.cmds[q]) && m.cmds[r].id == m.cmds[q].id ==>
              r == q)
    {
      NoOverlapLosesNothing(steps, r, q);
    }
    NoOverlapLosesNothing(steps, 0, 0);
  }

  /** The state after an uninterrupted AddCommand of a new command `r` under `id`. */
  function Added(m: Manager, id: Id, r: Ref): Manager {
    if id in m.store then m else m.(store := m.store[id := r], cmds := m.cmds[r := Command(id, Live, true)])
  }

  function AddSteps(a: Caller, id: Id, r: Ref): seq<Step> {
    [Has(a, id, r), GetContext(a), Set(a), Spawn(a)]
  }

  lemma AddAlone(m: Manager, a: Caller, id: Id, r: Ref)
    requires a !in m.adders && r !in m.cmds
    ensures Exec(m, AddSteps(a, id, r)) == Added(m, id, r)
  {
    var steps := AddSteps(a, id, r);
    RunFour(m, steps);
    if id !in m.store {
      AddStoresAndSpawns(m, a, id, r);
    }
  }

  lemma AddStoresAndSpawns(m: Manager, a: Caller, id: Id, r: Ref)
    requires a !in m.adders && r !in m.cmds && id !in m.store
    ensures Apply(Apply(Apply(Apply(m, Has(a, id, r)), GetContext(a)), Set(a)), Spawn(a)) == Added(m, id, r)
  {
    AddHasContext(m, a, id, r);
    ContextIsStored(m, a, id, r);
    StoredIsSpawned(m, a, id, r);
  }

  /** Past getContext: not yet in the store. */
  function PastContext(m: Manager, a: Caller, id: Id, r: Ref): Manager {
    m.(cmds := m.cmds[r := Command(id, Live, false)], adders := m.adders[a := HasContext(r)])
  }

  function PastSet(m: Manager, a: Caller, id: Id, r: Ref): Manager {
    m.(store := m.store[id := r], cmds := m.cmds[r := Command(id, Live, false)], adders := m.adders[a := Stored(r)])
  }

  lemma AddHasContext(m: Manager, a: Caller, id: Id, r: Ref)
    requires a !in m.adders && r !in m.cmds && id !in m.store
    ensures Apply(Apply(m, Has(a, id, r)), GetContext(a)) == PastContext(m, a, id, r)
  {
    var m1 := m.(cmds := m.cmds[r := Command(id, NoContext, false)], adders := m.adders[a := Absent(r)]);
    assert m1.cmds[r := Command(id, Live, false)] == m.cmds[r := Command(id, Live, false)];
    assert m1.adders[a := HasContext(r)] == m.adders[a := HasContext(r)];
  }

  lemma ContextIsStored(m: Manager, a: Caller, id: Id, r: Ref)
    ensures Apply(PastContext(m, a, id, r), Set(a)) == PastSet(m, a, id, r)
  {
    assert m.adders[a := HasContext(r)][a := Stored(r)] == m.adders[a := Stored(r)];
  }

  lemma StoredIsSpawned(m: Manager, a: Caller, id: Id, r: Ref)
    requires a !in m.adders && id !in m.store
    ensures Apply(PastSet(m, a, id, r), Spawn(a)) == Added(m, id, r)
  {
    assert m.adders[a := Stored(r)] - {a} == m.adders;
    assert m.cmds[r := Command(id, Live, false)][r := Command(id, Live, true)] == m.cmds[r := Command(id, Live, true)];
  }

  lemma RunFour(m: Manager, steps: seq<Step>)
    requires |steps| == 4
    ensures Exec(m, steps) == Apply(Apply(Apply(Apply(m, steps[0]), steps[1]), steps[2]), steps[3])
  {
    assert steps == [steps[0], steps[1]] + [steps[2], steps[3]];
    RunAppend(Apply, m, [steps[0], steps[1]], [steps[2], steps[3]]);
    RunTwo(m, steps[0], steps[1]);
    RunTwo(Apply(Apply(m, steps[0]), steps[1]), steps[2], steps[3]);
  }

  lemma RunTwo(m: Manager, x: Step, y: Step)
    ensures Exec(m, [x, y]) == Apply(Apply(m, x), y)
  {
    assert [x, y][1..] == [y];
    RunOne(Apply, Apply(m, x), y);
  }

  /** The state after an uninterrupted RemoveCommand. */
  function Removed(m: Manager, id: Id): Manager {
    if id !in m.store || m.store[id] !in m.cmds then m
    else m.(store := m.store - {id}, cmds := m.cmds[m.store[id] := WithCancelled(m.cmds[m.store[id]])])
  }

  lemma RemoveAlone(m: Manager, c: Caller, id: Id)
    requires c !in m.removers && StoreOk(m)
    ensures Exec(m, [GetOk(c, id)] + [Cancel(c), Remove(c)]) == Removed(m, id)
  {
    RunAppend(Apply, m, [GetOk(c, id)], [Cancel(c), Remove(c)]);
    RunOne(Apply, m, GetOk(c, id));
    RunTwo(Apply(m, GetOk(c, id)), Cancel(c), Remove(c));
    if id in m.store {
      var m1 := Apply(m, GetOk(c, id));
      var m2 := Apply(m1, Cancel(c));
      assert m2.removers - {c} == m.removers;
    }
  }

  // ----- more than one adder, or more than one remover -----

  /** Two AddCommands of one ID, both past Has, the first of them past Set. */
  function BothPastHas(id: Id): Manager {
    Manager(map[id := 0], map[0 := Command(id, Live, false), 1 := Command(id, NoContext, false)],
            map[0 := Stored(0), 1 := Absent(1)], map[])
  }

  lemma FirstAdderStores(id: Id)
    ensures Exec(INIT, [Has(0, id, 0), Has(1, id, 1), GetContext(0), Set(0)]) == BothPastHas(id)
  {
    RunFour(INIT, [Has(0, id, 0), Has(1, id, 1), GetContext(0), Set(0)]);
    var m2 := Manager(map[], map[0 := Command(id, NoContext, false), 1 := Command(id, NoContext, false)],
                      map[0 := Absent(0), 1 := Absent(1)], map[]);
    assert Apply(Apply(INIT, Has(0, id, 0)), Has(1, id, 1)) == m2;
    assert Apply(m2, GetContext(0)) ==
      m2.(cmds := BothPastHas(id).cmds, adders := map[0 := HasContext(0), 1 := Absent(1)]);
  }

  /** The first command runs; the second adder is past getContext. */
  function SecondHasContext(id: Id): Manager {
    Manager(map[id := 0], map[0 := Command(id, Live, true), 1 := Command(id, Live, false)],
            map[1 := HasContext(1)], map[])
  }

  /** The first command runs; the second adder is past Has. */
  function FirstRuns(id: Id): Manager {
    Manager(map[id := 0], map[0 := Command(id, Live, true), 1 := Command(id, NoContext, false)],
            map[1 := Absent(1)], map[])
  }

  lemma FirstAdderSpawns(id: Id)
    ensures Apply(BothPastHas(id), Spawn(0)) == FirstRuns(id)
  {
    assert BothPastHas(id).adders - {0} == FirstRuns(id).adders;
    assert BothPastHas(id).cmds[0 := Command(id, Live, true)] == FirstRuns(id).cmds;
  }

  lemma SecondAdderGetsContext(id: Id)
    ensures Apply(FirstRuns(id), GetContext(1)) == SecondHasContext(id)
  {
    assert FirstRuns(id).cmds[1 := Command(id, Live, false)] == SecondHasContext(id).cmds;
    assert FirstRuns(id).adders[1 := HasContext(1)] == SecondHasContext(id).adders;
  }

  lemma SecondAdderSets(id: Id)
    ensures !NoneLost(Apply(Apply(SecondHasContext(id), Set(1)), Spawn(1)))
  {
    var m := Apply(SecondHasContext(id), Set(1));
    assert m.store == map[id := 1] && m.cmds == SecondHasContext(id).cmds && m.adders[1] == Stored(1);
    var m' := Apply(m, Spawn(1));
    assert Active(m'.cmds[0]) && m'.cmds[0].id == id && !Holds(m'.store, id, 0);
  }

  lemma SecondAdderStores(id: Id)
    ensures !NoneLost(Exec(BothPastHas(id), [Spawn(0), GetContext(1), Set(1), Spawn(1)]))
  {
    RunFour(BothPastHas(id), [Spawn(0), GetContext(1), Set(1), Spawn(1)]);
    FirstAdderSpawns(id);
    SecondAdderGetsContext(id);
    SecondAdderSets(id);
  }

  /**
   * Two overlapping AddCommands of one ID: the second Set hides the first command, which nothing can
   * cancel any more.
   */
  lemma TwoAddersLose(id: Id)
    ensures exists steps :: !NoneLost(Exec(INIT, steps)) && forall step: Step :: step in steps ==> !step.GetOk?
  {
    var front := [Has(0, id, 0), Has(1, id, 1), GetContext(0), Set(0)];
    var back := [Spawn(0), GetContext(1), Set(1), Spawn(1)];
    RunAppend(Apply, INIT, front, back);
    FirstAdderStores(id);
    SecondAdderStores(id);
    assert !NoneLost(Exec(INIT, front + back));
  }

  /** Two RemoveCommands of the one command, both past cancel. */
  function BothPastCancel(id: Id): Manager {
    Manager(map[id := 0], map[0 := Command(id, Cancelled, true)], map[],
            map[1 := CancelCalled(id, 0), 2 := CancelCalled(id, 0)])
  }

  lemma BothCancel(id: Id)
    ensures Exec(Added(INIT, id, 0), [GetOk(1, id), GetOk(2, id), Cancel(1), Cancel(2)]) == BothPastCancel(id)
  {
    RunFour(Added(INIT, id, 0), [GetOk(1, id), GetOk(2, id), Cancel(1), Cancel(2)]);
    BothGetOk(id);
    FirstThenSecondCancel(id);
  }

  function BothFound(id: Id): Manager {
    Manager(map[id := 0], map[0 := Command(id, Live, true)], map[], map[1 := Found(id, 0), 2 := Found(id, 0)])
  }

  lemma BothGetOk(id: Id)
    ensures Apply(Apply(Added(INIT, id, 0), GetOk(1, id)), GetOk(2, id)) == BothFound(id)
  {
  }

  lemma FirstThenSecondCancel(id: Id)
    ensures Apply(Apply(BothFound(id), Cancel(1)), Cancel(2)) == BothPastCancel(id)
  {
    assert Apply(BothFound(id), Cancel(1)) ==
      BothPastCancel(id).(removers := map[1 := CancelCalled(id, 0), 2 := Found(id, 0)]);
  }

  lemma SecondRemoverRemoves(id: Id)
    ensures var m := Apply(BothPastCancel(id), Remove(1));
      0 !in m.adders && 1 !in m.cmds && !NoneLost(Apply(Added(m, id, 1), Remove(2)))
  {
    var m := Apply(BothPastCancel(id), Remove(1));
    assert m.store == map[] && m.removers == map[2 := CancelCalled(id, 0)];
    var m' := Apply(Added(m, id, 1), Remove(2));
    assert Active(m'.cmds[1]) && m'.cmds[1].id == id && id !in m'.store;
  }

  /** The first AddCommand, both removers up to cancel, and the first one's Remove. */
  function FirstRound(id: Id): seq<Step> {
    AddSteps(0, id, 0) + [GetOk(1, id), GetOk(2, id), Cancel(1), Cancel(2)] + [Remove(1)]
  }

  lemma FirstRemoverRemoves(id: Id)
    ensures Exec(INIT, FirstRound(id)) == Apply(BothPastCancel(id), Remove(1))
  {
    var add, get := AddSteps(0, id, 0), [GetOk(1, id), GetOk(2, id), Cancel(1), Cancel(2)];
    AddAlone(INIT, 0, id, 0);
    RunAppend(Apply, INIT, add, get);
    BothCancel(id);
    RunAppend(Apply, INIT, add + get, [Remove(1)]);
    RunOne(Apply, BothPastCancel(id), Remove(1));
  }

  lemma SecondRound(id: Id)
    ensures Exec(INIT, RacingRemoves(id)) ==
      Apply(Added(Apply(BothPastCancel(id), Remove(1)), id, 1), Remove(2))
  {
    var m := Apply(BothPastCancel(id), Remove(1));
    FirstRemoverRemoves(id);
    SecondRemoverRemoves(id);
    AddAlone(m, 0, id, 1);
    RunAppend(Apply, INIT, FirstRound(id), AddSteps(0, id, 1));
    RunAppend(Apply, INIT, FirstRound(id) + AddSteps(0, id, 1), [Remove(2)]);
    RunOne(Apply, Added(m, id, 1), Remove(2));
  }

  function RacingRemoves(id: Id): seq<Step> {
    FirstRound(id) + AddSteps(0, id, 1) + [Remove(2)]
  }

  predicate AddsBy(steps: seq<Step>, a: Caller) {
    forall step :: step in steps && step.Has? ==> step.caller == a
  }

  lemma RacingRemovesHaveOneAdder(id: Id)
    ensures AddsBy(RacingRemoves(id), 0)
  {
    assert AddsBy(AddSteps(0, id, 0), 0) && AddsBy(AddSteps(0, id, 1), 0);
    assert AddsBy([GetOk(1, id), GetOk(2, id), Cancel(1), Cancel(2)], 0);
  }

  /**
   * Two overlapping RemoveCommands of one ID with an AddCommand in between: the second takes the new
   * command out uncancelled.
   */
  lemma TwoRemoversLose(id: Id)
    ensures exists steps :: !NoneLost(Exec(INIT, steps)) && AddsBy(steps, 0)
  {
    SecondRound(id);
    SecondRemoverRemoves(id);
    RacingRemovesHaveOneAdder(id);
    assert !NoneLost(Exec(INIT, RacingRemoves(id)));
  }

  // ----- the code, called with no other call in progress -----

  datatype StopResult = Ok | DrainFailed | CommandNotFound

  /** The commands of the store, and no others, cancelled. */
  function CancelHeld(cmds: map<Ref, Command>, held: set<Ref>): map<Ref, Command> {
    map r | r in cmds :: if r in held then WithCancelled(cmds[r]) else cmds[r]
  }

  class Commands {
    var store: map<Id, Ref>
    /** The `Command` objects allocated so far. */
    var cmds: map<Ref, Command>
    var nextRef: Ref

    ghost function View(): Manager
      reads this
    {
      Manager(store, cmds, map[], map[])
    }

    ghost predicate Valid()
      reads this
    {
      StoreOk(View()) && forall r :: r in cmds ==> r < nextRef
    }

    constructor ()
      ensures Valid() && View() == INIT
    {
      store, cmds, nextRef := map[], map[], 0;
    }

    method AddCommand(id: Id)
      requires Valid()
      modifies this
      ensures Valid()
      ensures View() == Exec(old(View()), AddSteps(0, id, old(nextRef)))
      ensures id in old(store) ==> store == old(store) && cmds == old(cmds)
      ensures id !in old(store) ==>
        && store == old(store)[id := old(nextRef)]
        && cmds == old(cmds)[old(nextRef) := Command(id, Live, true)]
    {
      ghost var before := View();
      AddAlone(before, 0, id, nextRef);
      if id in store {
        return;
      }
      var r := nextRef;
      nextRef := nextRef + 1;
      var cmd := Command(id, NoContext, false);
      if cmd.ctx == NoContext {
        cmd := cmd.(ctx := Live);
      }
      store := store[id := r];
      cmd := cmd.(spawned := true);
      cmds := cmds[r := cmd];
    }

    /** Returns whether the command was found. */
    method RemoveCommand(id: Id) returns (found: bool)
      requires Valid()
      modifies this`store, this`cmds
      ensures Valid()
      ensures found <==> id in old(store)
      ensures View() == Removed(old(View()), id)
      ensures store == old(store) - {id} && cmds.Keys == old(cmds).Keys
      ensures forall r :: r in cmds ==>
        && cmds[r].id == old(cmds)[r].id && cmds[r].spawned == old(cmds)[r].spawned
        && cmds[r].ctx == if id in old(store) && old(store)[id] == r then Cancelled else old(cmds)[r].ctx
    {
      if id !in store {
        return false;
      }
      var r := store[id];
      if cmds[r].ctx == Live {
        cmds := cmds[r := cmds[r].(ctx := Cancelled)];
      }
      store := store - {id};
      return true;
    }

    /** The first loop of Stop: `drains` says of each subscription whether its Drain succeeds. */
    method Drain(drains: seq<bool>) returns (ok: bool)
      ensures ok <==> false !in drains
    {
      for i := 0 to |drains|
        invariant false !in drains[..i]
      {
        if !drains[i] {
          return false;
        }
      }
      return true;
    }

    /**
     * Drains the subscriptions, then removes every command of a snapshot of the store. When the drains
     * succeed the store ends up empty, exactly the commands it held are cancelled, and "command not
     * found" is never taken.
     */
    method Stop(drains: seq<bool>) returns (result: StopResult)
      requires Valid()
      modifies this`store, this`cmds
      ensures Valid()
      ensures result == if false in drains then DrainFailed else Ok
      ensures result == DrainFailed ==> View() == old(View())
      ensures result == Ok ==> store == map[] && cmds == CancelHeld(old(cmds), old(store).Values)
      ensures result == Ok ==> forall r :: r in old(cmds) ==>
        r in cmds && cmds[r].ctx == if r in old(store).Values then Cancelled else old(cmds)[r].ctx
    {
      var drained := Drain(drains);
      if !drained {
        return DrainFailed;
      }
      ghost var before := View();
      var all := store;
      var todo := all.Keys;
      while todo != {}
        invariant Valid() && todo <= all.Keys && all == before.store
        invariant PartlyStopped(before, View(), todo)
      {
        var key :| key in todo;
        var cmd := all[key];
        RemovedOneMore(before, View(), todo, key);
        var found := RemoveCommand(cmds[cmd].id);
        if !found {
          return CommandNotFound;
        }
        todo := todo - {key};
      }
      AllHeldCancelled(before, View());
      return Ok;
    }
  }

  /** Midway through Stop: the commands whose keys are done are cancelled and out of the store, the others as before. */
  ghost predicate HeldCancelled(m: Manager, cmds: map<Ref, Command>, todo: set<Id>) {
    && cmds.Keys == m.cmds.Keys
    && forall r :: r in cmds ==>
      cmds[r] ==
        if Holds(m.store, m.cmds[r].id, r) && m.cmds[r].id !in todo then WithCancelled(m.cmds[r]) else m.cmds[r]
  }

  ghost predicate PartlyStopped(m: Manager, now: Manager, todo: set<Id>) {
    HeldCancelled(m, now.cmds, todo) && now.store == m.store - (m.store.Keys - todo)
  }

  lemma RemovedOneMore(m: Manager, was: Manager, todo: set<Id>, key: Id)
    requires StoreOk(m) && PartlyStopped(m, was, todo) && key in todo && todo <= m.store.Keys
    ensures key in was.store && m.store[key] in was.cmds && was.cmds[m.store[key]].id == key
    ensures PartlyStopped(m, Removed(was, key), todo - {key})
  {
    assert m.store.Keys - (todo - {key}) == (m.store.Keys - todo) + {key};
    OneMoreCancelled(m, was.cmds, todo, key);
  }

  lemma OneMoreCancelled(m: Manager, cmds: map<Ref, Command>, todo: set<Id>, key: Id)
    requires StoreOk(m) && HeldCancelled(m, cmds, todo) && key in todo && key in m.store
    ensures var r := m.store[key];
      r in cmds && HeldCancelled(m, cmds[r := WithCancelled(cmds[r])], todo - {key})
  {
  }

  lemma AllHeldCancelled(m: Manager, now: Manager)
    requires StoreOk(m) && PartlyStopped(m, now, {})
    ensures now.store == map[] && now.cmds == CancelHeld(m.cmds, m.store.Values)
  {
    forall r | r in m.cmds
      ensures r in m.store.Values <==> Holds(m.store, m.cmds[r].id, r)
    {
      if r in m.store.Values {
        var id :| id in m.store && m.store[id] == r;
      }
    }
  }
}
