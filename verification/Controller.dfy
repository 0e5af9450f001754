/**
 The manager controller for one project: the chain of plan versions behind a cached active plan,
 and the counter that stops a manager that makes no progress.
 */
module Controller {
  import opened Wrappers

  datatype PlanStatus = Active | Revised | PlanCompleted

  datatype Plan = Plan(id: string, objective: string, tasks: seq<string>, milestones: seq<string>, status: PlanStatus,
                       version: nat)

  /** The plan update of a decision; entries that are missing are taken from the current plan. */
  datatype PlanUpdate = PlanUpdate(
    newId: string, objective: Option<string>, tasks: Option<seq<string>>, milestones: Option<seq<string>>)

  /** The stored plans in the order in which they were first saved, the cache, and the two counters. */
  datatype State = State(store: seq<Plan>, cached: Option<Plan>, idle: nat, cycles: nat)

  const START := State([], None, 0, 0)

  // ---------------------------------------------------------------- plans

  /** Saving replaces a plan of the same id, or adds a new one. */
  function Save(store: seq<Plan>, p: Plan): seq<Plan> {
    if store == [] then [p]
    else if store[0].id == p.id then [p] + store[1..]
    else [store[0]] + Save(store[1..], p)
  }

  /** Of the active plans, in version order, the last. */
  function LatestActive(store: seq<Plan>): Option<Plan> {
    if store == [] then None
    else
      var p, before := store[|store| - 1], LatestActive(store[..|store| - 1]);
      if p.status == Active && (before.None? || p.version >= before.value.version) then Some(p) else before
  }

  /** The active plan: the cached one, or else the latest in the store, which is then cached. */
  function Cached(s: State): State {
    if s.cached.Some? then s else s.(cached := LatestActive(s.store))
  }

  function ApplyPlanUpdate(s: State, u: PlanUpdate): State {
    var c := Cached(s);
    match c.cached
    case None =>
      var p := Plan(u.newId, GetOr(u.objective, ""), GetOr(u.tasks, []), GetOr(u.milestones, []), Active, 1);
      c.(store := Save(c.store, p), cached := Some(p))
    case Some(current) =>
      var p := Plan(u.newId, GetOr(u.objective, current.objective), GetOr(u.tasks, current.tasks),
                    GetOr(u.milestones, current.milestones), Active, current.version + 1);
      c.(store := Save(Save(c.store, current.(status := Revised)), p), cached := Some(p))
  }

  function CompletePlan(s: State): State {
    var c := Cached(s);
    match c.cached
    case None => c
    case Some(p) =>
      var done := p.(status := PlanCompleted);
      c.(store := Save(c.store, done), cached := Some(done))
  }

  /** A new controller over the same store: everything held in memory is gone. */
  function Restart(s: State): State { State(s.store, None, 0, 0) }

  // ---------------------------------------------------------------- cycles

  datatype ActionKind = Progressing | Wait | AskUser | Escalate | CompleteProject | OtherAction

  datatype Action = Action(kind: ActionKind, accepted: bool)

  /** What a cycle meets: whether it was asked for, what the decision proposes, and what else is the case. */
  datatype Input = Input(
    feedback: bool, trigger: bool, costExceeded: bool, planUpdate: Option<PlanUpdate>,
    actions: seq<Action>, tasksRunning: bool)

  datatype Limits = Limits(maxIdle: int, maxActions: nat)

  function Capped(actions: seq<Action>, n: nat): seq<Action> { if |actions| > n then actions[..n] else actions }

  predicate Accepts(actions: seq<Action>, kind: ActionKind) {
    exists i :: 0 <= i < |actions| && actions[i] == Action(kind, true)
  }

  /** Each accepted completion marks the active plan completed. */
  function Perform(s: State, actions: seq<Action>): State {
    if actions == [] then s
    else
      var before, a := Perform(s, actions[..|actions| - 1]), actions[|actions| - 1];
      if a == Action(CompleteProject, true) then CompletePlan(before) else before
  }

  predicate Paused(s: State, i: Input, limits: Limits) { s.idle >= limits.maxIdle && !i.feedback && !i.trigger }

  predicate IsIdle(i: Input, limits: Limits) {
    var actions := Capped(i.actions, limits.maxActions);
    && !Accepts(actions, Progressing) && !i.tasksRunning
    && !Accepts(actions, AskUser) && !Accepts(actions, CompleteProject)
  }

  function NextIdle(idle: nat, i: Input, limits: Limits): nat {
    if Accepts(Capped(i.actions, limits.maxActions), Progressing) then 0
    else if IsIdle(i, limits) then idle + 1
    else idle
  }

  function Cycle(s: State, i: Input, limits: Limits): State {
    if Paused(s, i, limits) then s
    else
      var counted := s.(cycles := s.cycles + 1);
      if i.costExceeded then counted
      else
        var gathered := Cached(counted);
        var planned := if i.planUpdate.Some? then ApplyPlanUpdate(gathered, i.planUpdate.value) else gathered;
        var performed := Perform(planned, Capped(i.actions, limits.maxActions));
        performed.(idle := NextIdle(s.idle, i, limits))
  }

  // ---------------------------------------------------------------- the controller

  class ManagerController {
    const limits: Limits
    var store: seq<Plan>
    var activePlan: Option<Plan>
    var consecutiveIdleCycles: nat
    var cycleCounter: nat

    ghost function View(): State
      reads this
    {
      State(store, activePlan, consecutiveIdleCycles, cycleCounter)
    }

    constructor (limits: Limits, store: seq<Plan>)
      ensures View() == State(store, None, 0, 0) && this.limits == limits
    {
      this.limits, this.store, activePlan, consecutiveIdleCycles, cycleCounter := limits, store, None, 0, 0;
    }

    method GetActivePlan() returns (p: Option<Plan>)
      modifies this`activePlan
      ensures View() == Cached(old(View())) && p == activePlan
    {
      if activePlan.None? {
        activePlan := LatestActive(store);
      }
      p := activePlan;
    }

    method ApplyUpdate(u: PlanUpdate)
      modifies this`activePlan, this`store
      ensures View() == ApplyPlanUpdate(old(View()), u)
    {
      hide Save, LatestActive;
      var current := GetActivePlan();
      var p;
      if current.None? {
        p := Plan(u.newId, GetOr(u.objective, ""), GetOr(u.tasks, []), GetOr(u.milestones, []), Active, 1);
      } else {
        var oldVersion := current.value.version;
        store := Save(store, current.value.(status := Revised));
        p := Plan(u.newId, GetOr(u.objective, current.value.objective), GetOr(u.tasks, current.value.tasks),
                  GetOr(u.milestones, current.value.milestones), Active, oldVersion + 1);
      }
      store := Save(store, p);
      activePlan := Some(p);
    }

    method Complete()
      modifies this`activePlan, this`store
      ensures View() == CompletePlan(old(View()))
    {
      hide Save, LatestActive;
      var current := GetActivePlan();
      if current.Some? {
        activePlan := Some(current.value.(status := PlanCompleted));
        store := Save(store, activePlan.value);
      }
    }

    /** The loop over the proposed actions, as many as are allowed. */
    method PerformActions(actions: seq<Action>) returns (progress: bool, askUser: bool, completed: bool)
      modifies this`activePlan, this`store
      ensures View() == Perform(old(View()), actions)
      ensures progress == Accepts(actions, Progressing)
      ensures askUser == Accepts(actions, AskUser) && completed == Accepts(actions, CompleteProject)
    {
      hide CompletePlan, Perform;
      progress, askUser, completed := false, false, false;
      PerformNothing(View());
      assert actions[..0] == [];
      for i := 0 to |actions|
        invariant View() == Perform(old(View()), actions[..i])
        invariant progress == Accepts(actions[..i], Progressing)
        invariant askUser == Accepts(actions[..i], AskUser) && completed == Accepts(actions[..i], CompleteProject)
      {
        assert actions[..i + 1] == actions[..i] + [actions[i]];
        PerformSnoc(old(View()), actions[..i], actions[i]);
        AcceptsSnoc(actions[..i], actions[i]);
        if actions[i].accepted {
          match actions[i].kind
          case Progressing => progress := true;
          case AskUser => askUser := true;
          case CompleteProject =>
            Complete();
            completed := true;
          case _ =>
        }
      }
      assert actions[..|actions|] == actions;
    }

    method ExecuteCycle(i: Input) returns (paused: bool)
      modifies this
      ensures View() == Cycle(old(View()), i, limits)
      ensures paused == Paused(old(View()), i, limits)
    {
      hide ApplyPlanUpdate, Perform, Cached, Accepts;
      if consecutiveIdleCycles >= limits.maxIdle && !i.feedback && !i.trigger {
        return true;
      }
      paused := false;
      cycleCounter := cycleCounter + 1;
      if i.costExceeded {
        return;
      }
      var plan := GetActivePlan();
      if i.planUpdate.Some? {
        ApplyUpdate(i.planUpdate.value);
      }
      var actions := if |i.actions| > limits.maxActions then i.actions[..limits.maxActions] else i.actions;
      var progress, askUser, completed := PerformActions(actions);
      if progress {
        consecutiveIdleCycles := 0;
      } else if !i.tasksRunning && !askUser && !completed {
        consecutiveIdleCycles := consecutiveIdleCycles + 1;
      }
    }
  }

  lemma {:induction false} PerformNothing(s: State)
    ensures Perform(s, []) == s
  {}

  lemma {:induction false} PerformSnoc(s: State, actions: seq<Action>, a: Action)
    ensures Perform(s, actions + [a])
         == if a == Action(CompleteProject, true) then CompletePlan(Perform(s, actions)) else Perform(s, actions)
  {
    assert (actions + [a])[..|actions|] == actions;
  }

  lemma {:induction false} AcceptsSnoc(actions: seq<Action>, a: Action)
    ensures forall kind :: Accepts(actions + [a], kind) <==> Accepts(actions, kind) || a == Action(kind, true)
  {
    var r := actions + [a];
    forall kind ensures Accepts(r, kind) <==> Accepts(actions, kind) || a == Action(kind, true) {
      if Accepts(actions, kind) {
        var i :| 0 <= i < |actions| && actions[i] == Action(kind, true);
        assert r[i] == Action(kind, true);
      }
      if a == Action(kind, true) {
        assert r[|actions|] == Action(kind, true);
      }
    }
  }

  // ---------------------------------------------------------------- the chain of versions

  /** Exactly the versions 1 to n, all but the last revised, and the last active or completed. */
  ghost predicate Chain(store: seq<Plan>) {
    && (forall i :: 0 <= i < |store| ==> store[i].version == i + 1)
    && (forall i :: 0 <= i < |store| - 1 ==> store[i].status == Revised)
    && (store != [] ==> store[|store| - 1].status != Revised)
    && (forall i, j :: 0 <= i < j < |store| ==> store[i].id != store[j].id)
  }

  /** If a plan is cached it is the last of the chain. */
  ghost predicate Coherent(s: State) {
    Chain(s.store) && (s.cached.Some? ==> s.store != [] && s.cached.value == s.store[|s.store| - 1])
  }

  lemma {:induction false} SaveLast(store: seq<Plan>, p: Plan)
    requires forall i :: 0 <= i < |store| - 1 ==> store[i].id != p.id
    ensures Save(store, p)
         == if store != [] && store[|store| - 1].id == p.id then store[..|store| - 1] + [p] else store + [p]
    decreases |store|
  {
    if store != [] && store[0].id != p.id {
      SaveLast(store[1..], p);
    }
  }

  lemma {:induction false} LatestActiveOfChain(store: seq<Plan>)
    requires Chain(store)
    ensures LatestActive(store)
         == if store != [] && store[|store| - 1].status == Active then Some(store[|store| - 1]) else None
  {
    if store != [] {
      NoneActive(store[..|store| - 1]);
    }
  }

  lemma {:induction false} NoneActive(store: seq<Plan>)
    requires forall i :: 0 <= i < |store| ==> store[i].status != Active
    ensures LatestActive(store) == None
    decreases |store|
  {
    if store != [] {
      NoneActive(store[..|store| - 1]);
    }
  }

  lemma {:induction false} CachedKeepsCoherent(s: State)
    requires Coherent(s)
    ensures Coherent(Cached(s)) && Cached(s).store == s.store
    ensures Cached(s).cached.Some? <==> s.cached.Some? || (s.store != [] && s.store[|s.store| - 1].status == Active)
  {
    hide LatestActive;
    LatestActiveOfChain(s.store);
  }

  lemma {:induction false} CompleteKeepsCoherent(s: State)
    requires Coherent(s)
    ensures Coherent(CompletePlan(s)) && |CompletePlan(s).store| == |s.store|
    ensures s.cached.Some? ==> CompletePlan(s).cached.Some?
  {
    hide Save, LatestActive;
    CachedKeepsCoherent(s);
    var c := Cached(s);
    if c.cached.Some? {
      SaveLast(c.store, c.cached.value.(status := PlanCompleted));
    }
  }

  ghost predicate FreshId(s: State, id: string) { forall i :: 0 <= i < |s.store| ==> s.store[i].id != id }

  /** With a plan to build on, an update adds the next version. */
  lemma {:induction false} UpdateExtendsChain(s: State, u: PlanUpdate)
    requires Coherent(s) && FreshId(s, u.newId) && (s.store == [] || Cached(s).cached.Some?)
    ensures var t := ApplyPlanUpdate(s, u);
      && Coherent(t) && t.cached.Some? && |t.store| == |s.store| + 1
      && t.cached.value.version == |t.store| && t.cached.value.status == Active
  {
    hide Save, LatestActive;
    CachedKeepsCoherent(s);
    var c := Cached(s);
    var n := |c.store|;
    if c.cached.Some? {
      var revised := c.cached.value.(status := Revised);
      SaveLast(c.store, revised);
      assert Save(c.store, revised) == c.store[..n - 1] + [revised];
      SaveLast(c.store[..n - 1] + [revised], ApplyPlanUpdate(s, u).cached.value);
    } else {
      SaveLast(c.store, ApplyPlanUpdate(s, u).cached.value);
    }
  }

  // ---------------------------------------------------------------- what the steps do

  /** The plan found in the store is active, no active one has a higher version, and none is missed. */
  lemma {:induction false} LatestActiveIs(store: seq<Plan>)
    ensures LatestActive(store).None? <==> forall q :: q in store ==> q.status != Active
    ensures LatestActive(store).Some? ==> var p := LatestActive(store).value;
      p in store && p.status == Active && forall q :: q in store && q.status == Active ==> q.version <= p.version
    decreases |store|
  {
    if store != [] {
      var n := |store| - 1;
      LatestActiveIs(store[..n]);
      assert forall q :: q in store <==> q in store[..n] || q == store[n];
    }
  }

  /** A field takes the value given, if one is. */
  predicate Given<T(==)>(given: Option<T>, was: T, now: T) { given == Some(now) || (given.None? && now == was) }

  /** The plan that an update adds takes what the update gives, and the rest from the plan before it. */
  lemma {:induction false} UpdateAddsPlan(s: State, u: PlanUpdate)
    requires Coherent(s) && FreshId(s, u.newId) && (s.store == [] || Cached(s).cached.Some?)
    ensures var t, n := ApplyPlanUpdate(s, u), |s.store|;
      && |t.store| == n + 1 && t.cached == Some(t.store[n]) && t.idle == s.idle && t.cycles == s.cycles
      && var p := t.store[n];
        && p.id == u.newId && p.version == n + 1 && p.status == Active
        && Given(u.objective, if n > 0 then s.store[n - 1].objective else "", p.objective)
        && Given(u.tasks, if n > 0 then s.store[n - 1].tasks else [], p.tasks)
        && Given(u.milestones, if n > 0 then s.store[n - 1].milestones else [], p.milestones)
        && (n > 0 ==> t.store[..n] == s.store[..n - 1] + [s.store[n - 1].(status := Revised)])
  {
    hide Save, LatestActive;
    CachedKeepsCoherent(s);
    var c := Cached(s);
    var n := |c.store|;
    if c.cached.Some? {
      var revised := c.cached.value.(status := Revised);
      SaveLast(c.store, revised);
      assert Save(c.store, revised) == c.store[..n - 1] + [revised];
      SaveLast(c.store[..n - 1] + [revised], ApplyPlanUpdate(s, u).cached.value);
    } else {
      SaveLast(c.store, ApplyPlanUpdate(s, u).cached.value);
    }
  }

  /** Completion marks the active plan, in the store and in the cache, and nothing else. */
  lemma {:induction false} CompletionMarksPlan(s: State)
    requires Coherent(s)
    ensures var t, n := CompletePlan(s), |s.store|;
      if Cached(s).cached.None? then t == Cached(s)
      else
        var done := s.store[n - 1].(status := PlanCompleted);
        t == s.(store := s.store[..n - 1] + [done], cached := Some(done))
  {
    hide Save, LatestActive;
    CachedKeepsCoherent(s);
    var c := Cached(s);
    if c.cached.Some? {
      SaveLast(c.store, c.cached.value.(status := PlanCompleted));
    }
  }

  /** The actions of a cycle complete the project once if one of them does, and otherwise leave the plans alone. */
  lemma {:induction false} ActionsComplete(s: State, actions: seq<Action>)
    requires Coherent(s)
    ensures Perform(s, actions)
         == if exists i :: 0 <= i < |actions| && actions[i] == Action(CompleteProject, true) then CompletePlan(s) else s
    decreases |actions|
  {
    hide CompletePlan, Coherent;
    if actions != [] {
      var n := |actions| - 1;
      ActionsComplete(s, actions[..n]);
      CompleteTwice(s);
      if i :| 0 <= i < n && actions[i] == Action(CompleteProject, true) {
        assert actions[..n][i] == actions[i];
      }
    }
  }

  lemma {:induction false} CompleteTwice(s: State)
    requires Coherent(s)
    ensures CompletePlan(CompletePlan(s)) == CompletePlan(s)
  {
    hide CompletePlan, LatestActive;
    CompletionMarksPlan(s);
    CompleteKeepsCoherent(s);
    CompletionMarksPlan(CompletePlan(s));
    CachedKeepsCoherent(s);
    if Cached(s).cached.None? {
      CacheTwice(s);
    }
  }

  /** One of the actions that count, those within the limit, is accepted and of the given kind. */
  ghost predicate Did(i: Input, limits: Limits, kind: ActionKind) {
    exists k :: 0 <= k < |i.actions| && k < limits.maxActions && i.actions[k].accepted && i.actions[k].kind == kind
  }

  /**
   A cycle by cases.  Nothing changes when the limit of idle cycles is reached and neither feedback
   nor an event asks for it; at the cost limit only the cycle is counted; otherwise the idle counter
   is reset by progress, kept while tasks run or the user is asked or the project completed, and
   counted up if not.
   */
  lemma {:induction false} CycleByCases(s: State, i: Input, limits: Limits)
    ensures var t := Cycle(s, i, limits);
      if s.idle >= limits.maxIdle && !i.feedback && !i.trigger then t == s
      else if i.costExceeded then t == s.(cycles := s.cycles + 1)
      else
        && t.cycles == s.cycles + 1
        && t.idle == (if Did(i, limits, Progressing) then 0
                      else if i.tasksRunning || Did(i, limits, AskUser) || Did(i, limits, CompleteProject) then s.idle
                      else s.idle + 1)
        && (i.planUpdate.None? && !Did(i, limits, CompleteProject) ==>
              t.store == s.store && t.cached == Cached(s).cached)
  {
    hide LatestActive, Save, Accepts, Did;
    DidAccepts(i, limits, Progressing);
    DidAccepts(i, limits, AskUser);
    DidAccepts(i, limits, CompleteProject);
    var counted := s.(cycles := s.cycles + 1);
    var planned := if i.planUpdate.Some? then ApplyPlanUpdate(Cached(counted), i.planUpdate.value) else Cached(counted);
    PerformKeepsCycles(planned, Capped(i.actions, limits.maxActions));
    PlansKeepCycles(counted, i.planUpdate);
    if !Did(i, limits, CompleteProject) {
      NoCompletion(planned, Capped(i.actions, limits.maxActions));
    }
  }

  /** What a cycle leaves of the plans: those after the update, if there is one, completed if an action does so. */
  lemma {:induction false} CyclePlans(s: State, i: Input, limits: Limits)
    requires Coherent(s) && (s.store == [] || s.cached.Some?) && !Paused(s, i, limits) && !i.costExceeded
    requires i.planUpdate.Some? ==> FreshId(s, i.planUpdate.value.newId)
    ensures var t := Cycle(s, i, limits);
      var planned := if i.planUpdate.Some? then ApplyPlanUpdate(s, i.planUpdate.value) else s;
      var done := if Did(i, limits, CompleteProject) then CompletePlan(planned) else planned;
      t.store == done.store && t.cached == done.cached
  {
    hide Save, LatestActive, Did, Chain;
    DidAccepts(i, limits, CompleteProject);
    var counted := s.(cycles := s.cycles + 1);
    CachedKeepsCoherent(counted);
    if s.store == [] {
      LatestActiveOfChain(s.store);
    }
    var planned := Cached(counted);
    if i.planUpdate.Some? {
      UpdateExtendsChain(Cached(counted), i.planUpdate.value);
      planned := ApplyPlanUpdate(Cached(counted), i.planUpdate.value);
    }
    ActionsComplete(planned, Capped(i.actions, limits.maxActions));
  }

  lemma {:induction false} DidAccepts(i: Input, limits: Limits, kind: ActionKind)
    ensures Accepts(Capped(i.actions, limits.maxActions), kind) <==> Did(i, limits, kind)
  {
    var actions := Capped(i.actions, limits.maxActions);
    if k :| 0 <= k < |actions| && actions[k] == Action(kind, true) {
      assert i.actions[k].accepted && i.actions[k].kind == kind;
    }
    if k :| 0 <= k < |i.actions| && k < limits.maxActions && i.actions[k].accepted && i.actions[k].kind == kind {
      assert actions[k] == Action(kind, true);
    }
  }

  lemma {:induction false} NoCompletion(s: State, actions: seq<Action>)
    requires !Accepts(actions, CompleteProject)
    ensures Perform(s, actions) == s
    decreases |actions|
  {
    if actions != [] {
      var n := |actions| - 1;
      assert actions[n] != Action(CompleteProject, true);
      forall i | 0 <= i < n ensures actions[..n][i] != Action(CompleteProject, true) {
        assert actions[..n][i] == actions[i];
      }
      NoCompletion(s, actions[..n]);
    }
  }

  // ---------------------------------------------------------------- runs

  /** What happens to a project: a cycle, or somebody asks for its active plan. */
  datatype Move = Orchestrate(input: Input) | ReadPlan

  function Next(s: State, m: Move, limits: Limits): State {
    if m.ReadPlan? then Cached(s) else Cycle(s, m.input, limits)
  }

  function Run(moves: seq<Move>, limits: Limits): State {
    if moves == [] then START else Next(Run(moves[..|moves| - 1], limits), moves[|moves| - 1], limits)
  }

  predicate Proposes(m: Move) { m.Orchestrate? && m.input.planUpdate.Some? }

  /** New plans get ids that are not in use. */
  ghost predicate FreshIds(moves: seq<Move>, limits: Limits) {
    forall k :: 0 <= k < |moves| && Proposes(moves[k]) ==>
      FreshId(Run(moves[..k], limits), moves[k].input.planUpdate.value.newId)
  }

  /** Whether the move carries out a plan update. */
  predicate Carries(s: State, m: Move, limits: Limits) {
    Proposes(m) && !m.input.costExceeded && !Paused(s, m.input, limits)
  }

  /** The plan updates that were carried out. */
  ghost function UpdatesApplied(moves: seq<Move>, limits: Limits): nat {
    if moves == [] then 0
    else
      var n := |moves| - 1;
      UpdatesApplied(moves[..n], limits) + if Carries(Run(moves[..n], limits), moves[n], limits) then 1 else 0
  }

  lemma {:induction false} PerformKeepsCoherent(s: State, actions: seq<Action>)
    requires Coherent(s)
    ensures var t := Perform(s, actions); Coherent(t) && |t.store| == |s.store| && (s.cached.Some? ==> t.cached.Some?)
    decreases |actions|
  {
    hide CompletePlan, Coherent;
    if actions != [] {
      PerformKeepsCoherent(s, actions[..|actions| - 1]);
      CompleteKeepsCoherent(Perform(s, actions[..|actions| - 1]));
    }
  }

  lemma {:induction false} MoveKeepsChain(s: State, m: Move, limits: Limits)
    requires Coherent(s) && (s.store != [] ==> s.cached.Some?)
    requires Proposes(m) ==> FreshId(s, m.input.planUpdate.value.newId)
    ensures var t := Next(s, m, limits);
      && Coherent(t) && (t.store != [] ==> t.cached.Some?)
      && |t.store| == |s.store| + if Carries(s, m, limits) then 1 else 0
  {
    hide Perform, ApplyPlanUpdate, LatestActive, NextIdle;
    CachedKeepsCoherent(s);
    if m.Orchestrate? && !Paused(s, m.input, limits) && !m.input.costExceeded {
      var i := m.input;
      var gathered := Cached(s.(cycles := s.cycles + 1));
      CachedKeepsCoherent(s.(cycles := s.cycles + 1));
      var planned := gathered;
      if i.planUpdate.Some? {
        UpdateExtendsChain(gathered, i.planUpdate.value);
        planned := ApplyPlanUpdate(gathered, i.planUpdate.value);
      }
      PerformKeepsCoherent(planned, Capped(i.actions, limits.maxActions));
    }
  }

  /**
   After any cycles and reads of the active plan from an empty store, with n plan updates carried
   out among them: the store holds exactly the versions 1 to n, at most the last is active, and the
   cached plan is version n.
   */
  lemma {:induction false} VersionsFormChain(moves: seq<Move>, limits: Limits)
    requires FreshIds(moves, limits)
    ensures var s := Run(moves, limits);
      && Coherent(s) && |s.store| == UpdatesApplied(moves, limits)
      && (s.store != [] ==> s.cached == Some(s.store[|s.store| - 1]))
    decreases |moves|
  {
    hide Next, Carries, Chain;
    if moves == [] {
      assert Chain(START.store) by { EmptyChain(); }
    } else {
      var n := |moves| - 1;
      forall k | 0 <= k < n && Proposes(moves[..n][k])
        ensures FreshId(Run(moves[..n][..k], limits), moves[..n][k].input.planUpdate.value.newId)
      {
        assert moves[..n][..k] == moves[..k];
      }
      VersionsFormChain(moves[..n], limits);
      MoveKeepsChain(Run(moves[..n], limits), moves[n], limits);
    }
  }

  lemma {:induction false} EmptyChain()
    ensures Chain([])
  {}

  /**
   The chain survives a restart of the controller if and only if the newest plan is still active:
   a completed one is not found again, and the next update starts over with version 1.
   */
  lemma {:induction false} RestartKeepsChainIff(s: State, u: PlanUpdate)
    requires Coherent(s) && s.store != [] && FreshId(s, u.newId)
    ensures Chain(ApplyPlanUpdate(Restart(s), u).store) <==> s.store[|s.store| - 1].status == Active
  {
    hide Save, LatestActive;
    var r := Restart(s);
    CachedKeepsCoherent(r);
    if s.store[|s.store| - 1].status == Active {
      UpdateExtendsChain(r, u);
    } else {
      var t := ApplyPlanUpdate(r, u);
      SaveLast(r.store, t.cached.value);
      assert t.store[|s.store|].version == 1;
    }
  }

  // ---------------------------------------------------------------- stagnation

  function RunFrom(s: State, moves: seq<Move>, limits: Limits): State
    decreases |moves|
  {
    if moves == [] then s else RunFrom(Next(s, moves[0], limits), moves[1..], limits)
  }

  ghost predicate Unprompted(moves: seq<Move>) {
    forall k :: 0 <= k < |moves| && moves[k].Orchestrate? ==> !moves[k].input.feedback && !moves[k].input.trigger
  }

  /**
   Once the limit is reached, no sequence of unprompted cycles changes anything; reads in between
   at most put the active plan in the cache.
   */
  lemma {:induction false} PauseIsFinal(s: State, moves: seq<Move>, limits: Limits)
    requires s.idle >= limits.maxIdle && Unprompted(moves)
    ensures RunFrom(s, moves, limits) == if exists k :: 0 <= k < |moves| && moves[k].ReadPlan? then Cached(s) else s
    decreases |moves|
  {
    hide LatestActive;
    if moves != [] {
      var m, rest := moves[0], moves[1..];
      assert moves == [m] + rest;
      assert m.Orchestrate? ==> Next(s, m, limits) == s;
      assert Cached(Cached(s)) == Cached(s) && Cached(s).idle == s.idle by { CacheTwice(s); }
      PauseIsFinal(Next(s, m, limits), rest, limits);
      if m.Orchestrate? && exists k :: 0 <= k < |moves| && moves[k].ReadPlan? {
        var k :| 0 <= k < |moves| && moves[k].ReadPlan?;
        assert rest[k - 1].ReadPlan?;
      }
      if exists k :: 0 <= k < |rest| && rest[k].ReadPlan? {
        var k :| 0 <= k < |rest| && rest[k].ReadPlan?;
        assert moves[k + 1].ReadPlan?;
      }
    }
  }

  /** Reading again finds what is cached, or again nothing. */
  lemma {:induction false} CacheTwice(s: State)
    ensures Cached(Cached(s)) == Cached(s) && Cached(s).idle == s.idle && Cached(s).cycles == s.cycles
  {}

  /** Unprompted cycles never take the counter past the limit. */
  lemma {:induction false} IdleStaysBounded(s: State, moves: seq<Move>, limits: Limits)
    requires Unprompted(moves)
    ensures var t := RunFrom(s, moves, limits);
      t.idle <= if s.idle > limits.maxIdle then s.idle else if limits.maxIdle < 0 then 0 else limits.maxIdle
    decreases |moves|
  {
    hide ApplyPlanUpdate, Perform, LatestActive, IsIdle;
    if moves != [] {
      IdleStaysBounded(Next(s, moves[0], limits), moves[1..], limits);
    }
  }

  /** The cycles among some moves. */
  function Cycles(moves: seq<Move>): nat {
    if moves == [] then 0 else (if moves[0].Orchestrate? then 1 else 0) + Cycles(moves[1..])
  }

  /** Unprompted cycles without progress pause the manager after exactly as many as the limit still allows. */
  lemma {:induction false} IdleRunsOut(s: State, moves: seq<Move>, limits: Limits)
    requires Unprompted(moves) && s.idle <= limits.maxIdle
    requires forall k :: 0 <= k < |moves| && moves[k].Orchestrate? ==>
      IsIdle(moves[k].input, limits) && !moves[k].input.costExceeded
    ensures var t := RunFrom(s, moves, limits);
      && t.idle == (if s.idle + Cycles(moves) <= limits.maxIdle then s.idle + Cycles(moves) else limits.maxIdle)
      && t.cycles - s.cycles == t.idle - s.idle
    decreases |moves|
  {
    hide ApplyPlanUpdate, Perform, LatestActive;
    if moves != [] {
      if moves[0].Orchestrate? {
        var i, counted := moves[0].input, s.(cycles := s.cycles + 1);
        var gathered := Cached(counted);
        PerformKeepsCycles(if i.planUpdate.Some? then ApplyPlanUpdate(gathered, i.planUpdate.value) else gathered,
                           Capped(i.actions, limits.maxActions));
        PlansKeepCycles(counted, i.planUpdate);
      }
      IdleRunsOut(Next(s, moves[0], limits), moves[1..], limits);
    }
  }

  lemma {:induction false} PerformKeepsCycles(s: State, actions: seq<Action>)
    ensures Perform(s, actions).cycles == s.cycles
    decreases |actions|
  {
    if actions != [] {
      PerformKeepsCycles(s, actions[..|actions| - 1]);
    }
  }

  lemma {:induction false} PlansKeepCycles(s: State, u: Option<PlanUpdate>)
    ensures Cached(s).cycles == s.cycles
    ensures u.Some? ==> ApplyPlanUpdate(Cached(s), u.value).cycles == s.cycles
  {}
}
