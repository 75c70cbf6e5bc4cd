/**
 The journey compiler and the journey executor.  The executor's callbacks are given by what they
 return on each call, and the abort signal by whether it is set at each place where it is read.
 */
module Journey {
  import opened Results
  import opened Strings
  import G = StateGraph

  datatype Observer = Observer(id: string, after: string)

  datatype Definition = Definition(
    id: string, graph: G.Graph, path: seq<string>, actors: seq<string>, observers: seq<Observer>, requireTerminal: bool, maxDuration: int)

  /** A planned transition is bound to the actor it names. */
  datatype Plan = Plan(id: string, graphId: string, initial: string, reached: string, steps: seq<G.Transition>, observers: seq<Observer>, maxDuration: int)

  datatype Error =
    | BadJourneyId | GraphError(error: G.Error) | StepCount | ActorCount | BadActor(id: string) | DuplicateActor(id: string) | InvalidPath
    | UnboundActor(transition: string) | NotTerminal(state: string) | ObserverCount | BadObserver(id: string) | DuplicateObserver(id: string)
    | ObserverOutside(id: string) | BadDuration | MissingContext(actor: string)

  const MAX_STEPS: nat := 4096
  const MAX_ACTORS: nat := 64
  const MAX_OBSERVERS: nat := 256

  /** The actor id pattern. */
  predicate ValidActorId(s: string) {
    1 <= |s| <= 64 && G.LowerAlnum(s[0]) && forall i :: 1 <= i < |s| ==> G.LowerAlnum(s[i]) || s[i] == '_' || s[i] == '-'
  }

  // ---------------------------------------------------------------------------------------
  // The compiler
  // ---------------------------------------------------------------------------------------

  ghost predicate ActorsOk(actors: seq<string>) {
    1 <= |actors| <= MAX_ACTORS && (forall i :: 0 <= i < |actors| ==> ValidActorId(actors[i])) && G.Distinct(actors)
  }

  ghost predicate ObserversOk(observers: seq<Observer>, path: seq<string>) {
    && |observers| <= MAX_OBSERVERS
    && (forall i :: 0 <= i < |observers| ==> ValidActorId(observers[i].id) && observers[i].after in path)
    && forall i, j :: 0 <= i < j < |observers| ==> observers[i].id != observers[j].id
  }

  /** The transitions that the ids of the path name. */
  function Named(ts: seq<G.Transition>, path: seq<string>): (r: seq<G.Transition>)
    requires forall i :: 0 <= i < |path| ==> G.TransitionWith(ts, path[i]).Some?
    ensures |r| == |path| && forall i :: 0 <= i < |r| ==> r[i] == G.TransitionWith(ts, path[i]).value
  {
    if path == [] then [] else Named(ts, path[..|path| - 1]) + [G.TransitionWith(ts, path[|path| - 1]).value]
  }

  ghost predicate ActorsBound(ts: seq<G.Transition>, path: seq<string>, actors: seq<string>) {
    forall i :: 0 <= i < |path| ==> G.TransitionWith(ts, path[i]).Some? && G.TransitionWith(ts, path[i]).value.actor in actors
  }

  ghost predicate Compilable(d: Definition) {
    var replay := G.Replay(d.graph.transitions, d.graph.initial, d.path);
    && ValidActorId(d.id) && G.GraphOk(d.graph) && 1 <= |d.path| <= MAX_STEPS && ActorsOk(d.actors)
    && replay.violations == [] && ActorsBound(d.graph.transitions, d.path, d.actors)
    && (d.requireTerminal ==> G.Terminal(d.graph.states, replay.reached))
    && ObserversOk(d.observers, d.path) && 1 <= d.maxDuration <= 600000
  }

  ghost predicate Compiles(d: Definition, p: Plan) {
    && p.id == d.id && p.graphId == d.graph.id && p.initial == d.graph.initial && p.observers == d.observers && p.maxDuration == d.maxDuration
    && p.reached == G.Replay(d.graph.transitions, d.graph.initial, d.path).reached
    && |p.steps| == |d.path| && forall i :: 0 <= i < |p.steps| ==> G.TransitionWith(d.graph.transitions, d.path[i]) == Some(p.steps[i])
  }

  method CheckActors(actors: seq<string>) returns (error: Option<Error>)
    ensures error.None? <==> ActorsOk(actors)
  {
    hide ValidActorId;
    if !(1 <= |actors| <= MAX_ACTORS) {
      return Some(ActorCount);
    }
    for i := 0 to |actors|
      invariant forall k :: 0 <= k < i ==> ValidActorId(actors[k])
      invariant forall j, k :: 0 <= j < k < i ==> actors[j] != actors[k]
    {
      if !ValidActorId(actors[i]) {
        return Some(BadActor(actors[i]));
      }
      if actors[i] in actors[..i] {
        return Some(DuplicateActor(actors[i]));
      }
    }
    return None;
  }

  method CheckObservers(observers: seq<Observer>, path: seq<string>) returns (error: Option<Error>)
    ensures error.None? <==> ObserversOk(observers, path)
  {
    hide ValidActorId;
    if |observers| > MAX_OBSERVERS {
      return Some(ObserverCount);
    }
    var ids: set<string> := {};
    for i := 0 to |observers|
      invariant forall k :: 0 <= k < i ==> ValidActorId(observers[k].id) && observers[k].after in path
      invariant forall j, k :: 0 <= j < k < i ==> observers[j].id != observers[k].id
      invariant forall id :: id in ids <==> exists k :: 0 <= k < i && observers[k].id == id
    {
      if !ValidActorId(observers[i].id) {
        return Some(BadObserver(observers[i].id));
      }
      if observers[i].id in ids {
        return Some(DuplicateObserver(observers[i].id));
      }
      if observers[i].after !in path {
        return Some(ObserverOutside(observers[i].id));
      }
      ids := ids + {observers[i].id};
    }
    return None;
  }

  method BindActors(ts: seq<G.Transition>, path: seq<string>, actors: seq<string>) returns (r: Result<seq<G.Transition>, Error>)
    requires forall i :: 0 <= i < |path| ==> G.TransitionWith(ts, path[i]).Some?
    ensures r.Ok? <==> ActorsBound(ts, path, actors)
    ensures r.Ok? ==> r.value == Named(ts, path)
  {
    hide G.TransitionWith;
    var index := G.IndexTransitions(ts);
    var steps: seq<G.Transition> := [];
    for i := 0 to |path|
      invariant forall k :: 0 <= k < i ==> G.TransitionWith(ts, path[k]).value.actor in actors
      invariant steps == Named(ts, path[..i])
    {
      var transition := index[path[i]];
      if transition.actor !in actors {
        return Err(UnboundActor(path[i]));
      }
      assert path[..i + 1][..i] == path[..i];
      steps := steps + [transition];
    }
    assert path[..|path|] == path;
    return Ok(steps);
  }

  /** The compiler accepts exactly the definitions that are well formed and whose path is a bound, connected walk to a terminal state. */
  method CompileStatefulJourney(d: Definition) returns (r: Result<Plan, Error>)
    ensures r.Ok? <==> Compilable(d)
    ensures r.Ok? ==> Compiles(d, r.value)
  {
    hide G.GraphOk, G.Replay, ValidActorId, ActorsOk, ObserversOk, ActorsBound, G.Terminal, G.TransitionWith;
    if !ValidActorId(d.id) {
      return Err(BadJourneyId);
    }
    var validation := G.ValidateStateGraph(d.graph);
    if validation.Err? {
      return Err(GraphError(validation.error));
    }
    if !(1 <= |d.path| <= MAX_STEPS) {
      return Err(StepCount);
    }
    var actorError := CheckActors(d.actors);
    if actorError.Some? {
      return Err(actorError.value);
    }
    var path := G.EvaluateStatePath(d.graph, d.path);
    if path.value.violations != [] {
      return Err(InvalidPath);
    }
    ValidPathsAreKnown(d.graph.transitions, d.graph.initial, d.path);
    var steps := BindActors(d.graph.transitions, d.path, d.actors);
    if steps.Err? {
      return Err(steps.error);
    }
    if d.requireTerminal {
      var terminal := IsTerminal(d.graph.states, path.value.reached);
      if !terminal {
        return Err(NotTerminal(path.value.reached));
      }
    }
    var observerError := CheckObservers(d.observers, d.path);
    if observerError.Some? {
      return Err(observerError.value);
    }
    if !(1 <= d.maxDuration <= 600000) {
      return Err(BadDuration);
    }
    return Ok(Plan(d.id, d.graph.id, d.graph.initial, path.value.reached, steps.value, d.observers, d.maxDuration));
  }

  method IsTerminal(states: seq<G.Node>, id: string) returns (terminal: bool)
    ensures terminal <==> G.Terminal(states, id)
  {
    for i := 0 to |states|
      invariant forall k :: 0 <= k < i ==> !(states[k].id == id && states[k].terminal)
    {
      if states[i].id == id && states[i].terminal {
        return true;
      }
    }
    return false;
  }

  lemma {:induction false} ValidPathsAreKnown(ts: seq<G.Transition>, a: string, path: seq<string>)
    requires G.Replay(ts, a, path).violations == []
    ensures forall i :: 0 <= i < |path| ==> G.TransitionWith(ts, path[i]).Some?
    ensures G.StepsTaken(ts, a, path) == Named(ts, path)
  {
    hide G.TransitionWith;
    if path != [] {
      var n := |path| - 1;
      ValidPathsAreKnown(ts, a, path[..n]);
      assert forall i :: 0 <= i < n ==> path[..n][i] == path[i];
    }
  }

  /** A compiled plan is a connected walk of the graph along its path, each step by a declared actor, ending in a terminal state unless waived. */
  lemma CompiledPlanIsAWalk(d: Definition, p: Plan)
    requires Compilable(d) && Compiles(d, p)
    ensures G.Walk(d.graph.transitions, p.initial, p.steps, p.reached) && G.IdsOf(p.steps) == d.path
    ensures forall i :: 0 <= i < |p.steps| ==> p.steps[i].actor in d.actors
    ensures d.requireTerminal ==> G.Terminal(d.graph.states, p.reached)
    ensures p.reached == StateAfter(p, |p.steps|)
  {
    hide G.GraphOk, G.Replay, G.TransitionWith, G.StepsTaken, ActorsOk, ObserversOk, G.Terminal, G.IdsOf;
    var ts := d.graph.transitions;
    ValidPathsAreKnown(ts, p.initial, d.path);
    G.ReplayIsAWalk(ts, p.initial, d.path);
    G.NoViolationTraversesAll(ts, p.initial, d.path);
    assert p.steps == Named(ts, d.path);
  }

  // ---------------------------------------------------------------------------------------
  // The executor
  // ---------------------------------------------------------------------------------------

  /** What a callback does: it throws, returns something that is no record, or returns a record with these fields. */
  datatype Raw = Throws | NoRecord | Record(ok: Option<bool>, code: Option<string>, observed: Option<string>)

  /** The callbacks of one execution by step, the abort signal where it is read, and the observers' checks by step and place in the plan. */
  datatype Env = Env(action: nat -> Raw, abortedBefore: nat -> bool, abortedAfter: nat -> bool, check: (nat, nat) -> Raw, cleanup: Raw)

  datatype CheckResult = CheckResult(ok: bool, code: Option<string>, observed: Option<string>)

  datatype StepResult = StepResult(transition: G.Transition, ok: bool, code: Option<string>)

  datatype ObserverResult = ObserverResult(observerId: string, transitionId: string, ok: bool, code: Option<string>)

  datatype FailurePhase = ActionPhase | ObserverPhase | CleanupPhase | TimeoutPhase

  datatype Failure = Failure(phase: FailurePhase, code: string, id: Option<string>)

  datatype Status = Succeeded | Failed | Aborted

  datatype Cleanup = Cleanup(ok: bool, code: Option<string>)

  datatype Progress = Progress(steps: seq<StepResult>, observers: seq<ObserverResult>, status: Status, reached: string, failure: Option<Failure>)

  datatype Execution = Execution(progress: Progress, cleanup: Cleanup)

  /** The code pattern. */
  predicate SafePattern(s: string) {
    1 <= |s| <= 64 && G.LowerAlnum(s[0]) && forall i :: 1 <= i < |s| ==> G.LowerAlnum(s[i]) || s[i] in "_.-"
  }

  function SafeCode(value: Option<string>, fallback: string): string {
    if value.Some? && SafePattern(value.value) then value.value else fallback
  }

  function Normalize(raw: Raw, thrown: string, invalid: string): CheckResult {
    match raw
    case Throws => CheckResult(false, Some(thrown), None)
    case NoRecord => CheckResult(false, Some(invalid), None)
    case Record(ok, code, observed) => CheckResult(ok == Some(true), code, observed)
  }

  /** The places of the observers that come after the transition. */
  function BoundTo(observers: seq<Observer>, transitionId: string): (r: seq<nat>)
    ensures forall j :: 0 <= j < |r| ==> r[j] < |observers|
  {
    if observers == [] then []
    else
      var n: nat := |observers| - 1;
      BoundTo(observers[..n], transitionId) + if observers[n].after == transitionId then [n] else []
  }

  /** The k-th step's action did what was planned. */
  predicate ActionOk(env: Env, k: nat, t: G.Transition) {
    var r := Normalize(env.action(k), "action_exception", "action_invalid_result");
    r.ok && r.observed == Some(t.to)
  }

  /** The check of the observer at place i after the k-th step passes. */
  predicate CheckOk(env: Env, k: nat, i: nat) {
    env.check(k, i).Record? && env.check(k, i).ok == Some(true)
  }

  function Recorded(env: Env, k: nat, t: G.Transition): StepResult {
    var r := Normalize(env.action(k), "action_exception", "action_invalid_result");
    StepResult(t, r.ok && r.observed == Some(t.to), if r.ok then None else Some(SafeCode(r.code, "action_rejected")))
  }

  function Observation(env: Env, k: nat, i: nat, o: Observer, t: G.Transition): ObserverResult {
    var r := Normalize(env.check(k, i), "observer_exception", "observer_invalid_result");
    ObserverResult(o.id, t.id, r.ok, if r.ok then None else Some(SafeCode(r.code, "observer_rejected")))
  }

  predicate Places(observers: seq<Observer>, bound: seq<nat>) {
    forall j :: 0 <= j < |bound| ==> bound[j] < |observers|
  }

  /** The observers at the places in turn, up to the first that fails. */
  function Observe(env: Env, k: nat, observers: seq<Observer>, bound: seq<nat>, t: G.Transition): (seq<ObserverResult>, Option<Failure>)
    requires Places(observers, bound)
  {
    if bound == [] then ([], None)
    else
      var j: nat := |bound| - 1;
      var (results, failure) := Observe(env, k, observers, bound[..j], t);
      if failure.Some? then (results, failure)
      else
        var o := Observation(env, k, bound[j], observers[bound[j]], t);
        (results + [o], if o.ok then None else Some(Failure(ObserverPhase, o.code.value, Some(observers[bound[j]].id))))
  }

  function ActionFailure(env: Env, k: nat, t: G.Transition): Failure {
    var r := Normalize(env.action(k), "action_exception", "action_invalid_result");
    Failure(ActionPhase, if r.ok then "observed_state_mismatch" else SafeCode(r.code, "action_rejected"), Some(t.id))
  }

  /** One turn of the loop over the plan. */
  function Turn(plan: Plan, env: Env, p: Progress, k: nat): Progress
    requires k < |plan.steps|
  {
    var t := plan.steps[k];
    if env.abortedBefore(k) then p.(status := Aborted, failure := Some(Failure(TimeoutPhase, "journey_aborted", None)))
    else
      var q := p.(steps := p.steps + [Recorded(env, k, t)]);
      if env.abortedAfter(k) then q.(status := Aborted, failure := Some(Failure(TimeoutPhase, "journey_timeout", Some(t.id))))
      else if !ActionOk(env, k, t) then q.(status := Failed, failure := Some(ActionFailure(env, k, t)))
      else
        var (results, failure) := Observe(env, k, plan.observers, BoundTo(plan.observers, t.id), t);
        q.(reached := t.to, observers := p.observers + results, status := if failure.Some? then Failed else p.status, failure := failure)
  }

  /** The loop after n turns, left as soon as something failed. */
  function Loop(plan: Plan, env: Env, n: nat): Progress
    requires n <= |plan.steps|
  {
    if n == 0 then Progress([], [], Succeeded, plan.initial, None)
    else
      var p := Loop(plan, env, n - 1);
      if p.failure.Some? then p else Turn(plan, env, p, n - 1)
  }

  predicate CleanupOk(raw: Raw) {
    raw.NoRecord? || (raw.Record? && raw.ok != Some(false))
  }

  function Finish(p: Progress, raw: Raw): Execution {
    if CleanupOk(raw) then Execution(p, Cleanup(true, None))
    else
      var code := if raw.Throws? then "cleanup_exception" else SafeCode(raw.code, "cleanup_rejected");
      Execution(if p.status == Succeeded then p.(status := Failed, failure := Some(Failure(CleanupPhase, code, None))) else p, Cleanup(false, Some(code)))
  }

  predicate HasContexts(plan: Plan, contexts: set<string>) {
    forall i :: 0 <= i < |plan.steps| ==> plan.steps[i].actor in contexts
  }

  function Run(plan: Plan, env: Env): Execution {
    Finish(Loop(plan, env, |plan.steps|), env.cleanup)
  }

  /** The index of observers by transition; an observer stands for itself by its place. */
  method GroupObservers(observers: seq<Observer>) returns (index: map<string, seq<nat>>)
    ensures forall id :: (if id in index then index[id] else []) == BoundTo(observers, id)
  {
    index := map[];
    for i := 0 to |observers|
      invariant forall id :: (if id in index then index[id] else []) == BoundTo(observers[..i], id)
    {
      assert observers[..i + 1][..i] == observers[..i];
      var after := observers[i].after;
      index := index[after := (if after in index then index[after] else []) + [i]];
    }
    assert observers[..|observers|] == observers;
  }

  /** A missing context throws before anything runs; else the plan runs and cleanup is called exactly once, on every way out. */
  method ExecuteStatefulJourney(plan: Plan, contexts: set<string>, env: Env) returns (r: Result<Execution, Error>, cleanups: nat)
    ensures r.Ok? <==> HasContexts(plan, contexts)
    ensures r.Ok? ==> r.value == Run(plan, env) && cleanups == 1
    ensures r.Err? ==> cleanups == 0 && exists i :: 0 <= i < |plan.steps| && plan.steps[i].actor !in contexts && r.error == MissingContext(plan.steps[i].actor)
  {
    hide BoundTo, Observe, SafeCode, SafePattern, Recorded, ActionOk, ActionFailure;
    cleanups := 0;
    for i := 0 to |plan.steps|
      invariant forall k :: 0 <= k < i ==> plan.steps[k].actor in contexts
    {
      if plan.steps[i].actor !in contexts {
        return Err(MissingContext(plan.steps[i].actor)), cleanups;
      }
    }
    var byTransition := GroupObservers(plan.observers);
    var p := Progress([], [], Succeeded, plan.initial, None);
    var k: nat := 0;
    while k < |plan.steps| && p.failure.None?
      invariant k <= |plan.steps| && p == Loop(plan, env, k)
    {
      var t := plan.steps[k];
      if env.abortedBefore(k) {
        p := p.(status := Aborted, failure := Some(Failure(TimeoutPhase, "journey_aborted", None)));
      } else {
        p := p.(steps := p.steps + [Recorded(env, k, t)]);
        if env.abortedAfter(k) {
          p := p.(status := Aborted, failure := Some(Failure(TimeoutPhase, "journey_timeout", Some(t.id))));
        } else if !ActionOk(env, k, t) {
          p := p.(status := Failed, failure := Some(ActionFailure(env, k, t)));
        } else {
          p := p.(reached := t.to);
          var bound := if t.id in byTransition then byTransition[t.id] else [];
          var results, failure := RunObservers(env, k, plan.observers, bound, t);
          p := p.(observers := p.observers + results, failure := failure);
          if failure.Some? {
            p := p.(status := Failed);
          }
        }
      }
      k := k + 1;
    }
    StoppedLoopStays(plan, env, k, |plan.steps|);
    cleanups := cleanups + 1;
    return Ok(Finish(p, env.cleanup)), cleanups;
  }

  method RunObservers(env: Env, k: nat, observers: seq<Observer>, bound: seq<nat>, t: G.Transition)
    returns (results: seq<ObserverResult>, failure: Option<Failure>)
    requires Places(observers, bound)
    ensures (results, failure) == Observe(env, k, observers, bound, t)
  {
    hide Observation;
    results, failure := [], None;
    var j: nat := 0;
    assert bound[..0] == [];
    while j < |bound| && failure.None?
      invariant j <= |bound| && (results, failure) == Observe(env, k, observers, bound[..j], t)
    {
      assert bound[..j + 1][..j] == bound[..j] && bound[..j + 1][j] == bound[j];
      var i := bound[j];
      var o := Observation(env, k, i, observers[i], t);
      results := results + [o];
      if !o.ok {
        ObservationHasCode(env, k, i, observers[i], t);
        failure := Some(Failure(ObserverPhase, o.code.value, Some(observers[i].id)));
      }
      j := j + 1;
    }
    StoppedObserversStay(env, k, observers, bound, t, j);
  }

  lemma ObservationHasCode(env: Env, k: nat, i: nat, o: Observer, t: G.Transition)
    ensures !Observation(env, k, i, o, t).ok ==> Observation(env, k, i, o, t).code.Some?
  {
  }

  lemma {:induction false} StoppedObserversStay(env: Env, k: nat, observers: seq<Observer>, bound: seq<nat>, t: G.Transition, j: nat)
    requires Places(observers, bound) && j <= |bound| && (j < |bound| ==> Observe(env, k, observers, bound[..j], t).1.Some?)
    ensures Observe(env, k, observers, bound, t) == Observe(env, k, observers, bound[..j], t)
    decreases |bound| - j
  {
    hide Observation;
    if j < |bound| {
      assert bound[..j + 1][..j] == bound[..j];
      StoppedObserversStay(env, k, observers, bound, t, j + 1);
    } else {
      assert bound[..j] == bound;
    }
  }

  lemma {:induction false} StoppedLoopStays(plan: Plan, env: Env, k: nat, n: nat)
    requires k <= n <= |plan.steps| && (k < n ==> Loop(plan, env, k).failure.Some?)
    ensures Loop(plan, env, n) == Loop(plan, env, k)
    decreases n - k
  {
    hide Turn;
    if k < n {
      StoppedLoopStays(plan, env, k + 1, n);
    }
  }

  // ---------------------------------------------------------------------------------------
  // What an execution says
  // ---------------------------------------------------------------------------------------

  /** The planned state after the first n steps. */
  function StateAfter(plan: Plan, n: nat): string
    requires n <= |plan.steps|
  {
    if n == 0 then plan.initial else plan.steps[n - 1].to
  }

  /** Every observer that comes after the step's transition passes. */
  ghost predicate ChecksOk(plan: Plan, env: Env, k: nat)
    requires k < |plan.steps|
  {
    forall i: nat :: i < |plan.observers| && plan.observers[i].after == plan.steps[k].id ==> CheckOk(env, k, i)
  }

  /** Nothing was aborted at the step, its action reached the planned state and its observers passed. */
  ghost predicate StepPasses(plan: Plan, env: Env, k: nat)
    requires k < |plan.steps|
  {
    !env.abortedBefore(k) && ActionOk(env, k, plan.steps[k]) && !env.abortedAfter(k) && ChecksOk(plan, env, k)
  }

  /** Places in the order of the plan. */
  predicate InOrder(places: seq<nat>) {
    forall a, b :: 0 <= a < b < |places| ==> places[a] < places[b]
  }

  /** The index lists, in the order of the plan, exactly the observers that come after the transition. */
  lemma {:induction false} BoundAreAll(observers: seq<Observer>, id: string)
    ensures InOrder(BoundTo(observers, id))
    ensures forall i: nat :: i in BoundTo(observers, id) <==> i < |observers| && observers[i].after == id
  {
    if observers != [] {
      BoundAreAll(observers[..|observers| - 1], id);
    }
  }

  lemma ObservationOkIff(env: Env, k: nat, i: nat, o: Observer, t: G.Transition)
    ensures Observation(env, k, i, o, t).ok <==> CheckOk(env, k, i)
  {
  }

  lemma {:induction false} ObserveFailsIff(env: Env, k: nat, observers: seq<Observer>, bound: seq<nat>, t: G.Transition)
    requires Places(observers, bound)
    ensures Observe(env, k, observers, bound, t).1.None? <==> forall i :: i in bound ==> CheckOk(env, k, i)
  {
    hide Observation, CheckOk;
    if bound != [] {
      var n: nat := |bound| - 1;
      ObserveFailsIff(env, k, observers, bound[..n], t);
      ObservationOkIff(env, k, bound[n], observers[bound[n]], t);
      assert bound == bound[..n] + [bound[n]];
    }
  }

  /** The observations recorded are those of the first observers, all of them when none failed, and only the last can fail. */
  lemma {:induction false} ObserveRecords(env: Env, k: nat, observers: seq<Observer>, bound: seq<nat>, t: G.Transition)
    requires Places(observers, bound)
    ensures var (results, failure) := Observe(env, k, observers, bound, t);
      && |results| <= |bound| && (failure.None? ==> |results| == |bound|)
      && (forall j :: 0 <= j < |results| ==> results[j] == Observation(env, k, bound[j], observers[bound[j]], t))
      && (forall j :: 0 <= j < |results| - 1 ==> results[j].ok) && (failure.None? ==> forall j :: 0 <= j < |results| ==> results[j].ok)
      && (failure.Some? ==>
            && results != [] && !results[|results| - 1].ok
            && failure.value.phase == ObserverPhase && failure.value.id == Some(results[|results| - 1].observerId)
            && results[|results| - 1].code == Some(failure.value.code))
  {
    hide Observation;
    if bound != [] {
      var n := |bound| - 1;
      ObserveRecords(env, k, observers, bound[..n], t);
      ObservationHasCode(env, k, bound[n], observers[bound[n]], t);
      ObservationIsOf(env, k, bound[n], observers[bound[n]], t);
    }
  }

  lemma ObservationIsOf(env: Env, k: nat, i: nat, o: Observer, t: G.Transition)
    ensures Observation(env, k, i, o, t).observerId == o.id && Observation(env, k, i, o, t).transitionId == t.id
  {
  }

  /** How the loop stands: which steps were recorded and which state was reached. */
  ghost predicate Stands(plan: Plan, env: Env, p: Progress) {
    && |p.steps| <= |plan.steps|
    && (forall k: nat :: k < |p.steps| ==> p.steps[k] == Recorded(env, k, plan.steps[k]))
    && (p.failure.Some? && p.failure.value.phase == ActionPhase ==> |p.steps| > 0 && !p.steps[|p.steps| - 1].ok)
    && (p.failure.Some? ==> p.status == (if p.failure.value.phase == TimeoutPhase then Aborted else Failed))
    && p.reached == StateAfter(plan, if Behind(p) then |p.steps| - 1 else |p.steps|)
    && (forall k: nat :: k + 1 < |p.steps| ==> p.steps[k].ok)
    && (|p.steps| > 0 ==> (Behind(p) <==> env.abortedAfter(|p.steps| - 1) || !p.steps[|p.steps| - 1].ok))
  }

  /** It is under way after n turns. */
  ghost predicate UnderWay(plan: Plan, env: Env, p: Progress, n: nat) {
    Stands(plan, env, p) && p.failure.None? && |p.steps| == n && p.status == Succeeded
  }

  /** The last step was recorded but not taken over into the reached state. */
  predicate Behind(p: Progress) {
    |p.steps| > 0 && p.failure.Some? && (p.failure.value.phase == ActionPhase || (p.failure.value.phase == TimeoutPhase && p.failure.value.id.Some?))
  }

  lemma TurnStands(plan: Plan, env: Env, p: Progress, n: nat)
    requires n < |plan.steps| && UnderWay(plan, env, p, n)
    ensures Stands(plan, env, Turn(plan, env, p, n))
    ensures Turn(plan, env, p, n).failure.None? ==> UnderWay(plan, env, Turn(plan, env, p, n), n + 1)
  {
    hide Observe, BoundTo, Recorded, ActionOk, ActionFailure, SafeCode;
    var t := plan.steps[n];
    RecordedOkIff(env, n, t);
    ObserveRecords(env, n, plan.observers, BoundTo(plan.observers, t.id), t);
  }

  lemma RecordedOkIff(env: Env, k: nat, t: G.Transition)
    ensures Recorded(env, k, t).ok <==> ActionOk(env, k, t)
    ensures Recorded(env, k, t).transition == t && ActionFailure(env, k, t).phase == ActionPhase
  {
  }

  lemma {:induction false} LoopStands(plan: Plan, env: Env, n: nat)
    requires n <= |plan.steps|
    ensures Stands(plan, env, Loop(plan, env, n))
    ensures Loop(plan, env, n).failure.None? ==> UnderWay(plan, env, Loop(plan, env, n), n)
  {
    hide Turn;
    if n > 0 {
      LoopStands(plan, env, n - 1);
      if Loop(plan, env, n - 1).failure.None? {
        TurnStands(plan, env, Loop(plan, env, n - 1), n - 1);
      }
      hide Stands;
    }
  }

  lemma {:induction false} LoopSucceedsIff(plan: Plan, env: Env, n: nat)
    requires n <= |plan.steps|
    ensures Loop(plan, env, n).failure.None? <==> forall k: nat :: k < n ==> StepPasses(plan, env, k)
  {
    hide Observe, BoundTo, SafeCode, ActionOk, CheckOk;
    if n > 0 {
      LoopSucceedsIff(plan, env, n - 1);
      BoundAreAll(plan.observers, plan.steps[n - 1].id);
      ObserveFailsIff(env, n - 1, plan.observers, BoundTo(plan.observers, plan.steps[n - 1].id), plan.steps[n - 1]);
      assert Loop(plan, env, n).failure.None? <==> Loop(plan, env, n - 1).failure.None? && StepPasses(plan, env, n - 1);
      hide Loop, StepPasses;
    }
  }

  /** An execution succeeds exactly when every step passes, unaborted and with all its observers, and cleanup is not refused. */
  lemma SucceedsIff(plan: Plan, env: Env)
    ensures Run(plan, env).progress.status == Succeeded <==> (forall k: nat :: k < |plan.steps| ==> StepPasses(plan, env, k)) && CleanupOk(env.cleanup)
  {
    hide Loop, StepPasses;
    LoopSucceedsIff(plan, env, |plan.steps|);
    LoopStands(plan, env, |plan.steps|);
  }

  /** A successful execution ran the whole plan, each step ok, and reached the plan's last state. */
  lemma SuccessRunsThePlan(plan: Plan, env: Env)
    requires Run(plan, env).progress.status == Succeeded
    ensures var p := Run(plan, env).progress;
      && |p.steps| == |plan.steps| && p.failure.None? && Run(plan, env).cleanup.ok
      && (forall k :: 0 <= k < |p.steps| ==> p.steps[k].transition == plan.steps[k] && p.steps[k].ok)
      && p.reached == StateAfter(plan, |plan.steps|)
  {
    hide Loop, SafeCode;
    LoopStands(plan, env, |plan.steps|);
  }

  /**
   In every execution the recorded steps are a prefix of the plan, all but possibly the last ok,
   and the reached state is the one after them, or one earlier when the last was refused or an
   abort was noticed right after it.
   */
  lemma StepsArePrefix(plan: Plan, env: Env)
    ensures var p := Run(plan, env).progress;
      && |p.steps| <= |plan.steps|
      && (forall k :: 0 <= k < |p.steps| ==> p.steps[k].transition == plan.steps[k] && (k < |p.steps| - 1 ==> p.steps[k].ok))
      && p.reached == StateAfter(plan, if Behind(p) then |p.steps| - 1 else |p.steps|)
      && (!Behind(p) ==> forall k :: 0 <= k < |p.steps| ==> p.steps[k].ok)
  {
    hide Loop, SafeCode;
    LoopStands(plan, env, |plan.steps|);
  }

  /** The reached state lags behind a last step that was ok exactly when an abort was noticed right after that step. */
  lemma LagsBehindOkStepIff(plan: Plan, env: Env)
    ensures var p := Run(plan, env).progress;
      |p.steps| > 0 && p.steps[|p.steps| - 1].ok ==>
        (Behind(p) <==> env.abortedAfter(|p.steps| - 1)) && (Behind(p) ==> p.status == Aborted)
  {
    hide Loop, SafeCode;
    LoopStands(plan, env, |plan.steps|);
  }

  /** Compiled and executed successfully, a journey ends in the state the compiler announced. */
  lemma SuccessReachesCompiledState(d: Definition, plan: Plan, env: Env)
    requires Compilable(d) && Compiles(d, plan) && Run(plan, env).progress.status == Succeeded
    ensures Run(plan, env).progress.reached == plan.reached
    ensures d.requireTerminal ==> G.Terminal(d.graph.states, Run(plan, env).progress.reached)
  {
    hide Compilable, Compiles, Run;
    CompiledPlanIsAWalk(d, plan);
    SuccessRunsThePlan(plan, env);
  }

  // ---------------------------------------------------------------------------------------
  // Which observations are recorded
  // ---------------------------------------------------------------------------------------

  /**
   These are the observations of the k-th step by the observers that come after it, in the order of
   the plan: by all of them, or by the first ones up to one that failed.
   */
  ghost predicate ObservedAt(plan: Plan, env: Env, k: nat, observed: seq<ObserverResult>, all: bool, places: seq<nat>)
    requires k < |plan.steps|
  {
    var t := plan.steps[k];
    && InOrder(places) && |observed| == |places|
    && (forall j :: 0 <= j < |places| ==>
          && places[j] < |plan.observers| && plan.observers[places[j]].after == t.id
          && observed[j] == Observation(env, k, places[j], plan.observers[places[j]], t)
          && (observed[j].ok || (!all && j == |places| - 1)))
    && (forall i: nat :: i < |plan.observers| && plan.observers[i].after == t.id ==>
          i in places || (!all && places != [] && places[|places| - 1] < i))
    && (!all ==> observed != [] && !observed[|observed| - 1].ok)
  }

  ghost predicate StepObserved(plan: Plan, env: Env, k: nat, observed: seq<ObserverResult>, all: bool)
    requires k < |plan.steps|
  {
    exists places :: ObservedAt(plan, env, k, observed, all, places)
  }

  /** The observations of the first n steps, all complete but possibly the last step's. */
  ghost predicate AllObserved(plan: Plan, env: Env, n: nat, observed: seq<ObserverResult>, all: bool)
    requires n <= |plan.steps|
  {
    if n == 0 then observed == [] && all
    else
      exists m: nat :: m <= |observed| && AllObserved(plan, env, n - 1, observed[..m], true) && StepObserved(plan, env, n - 1, observed[m..], all)
  }

  lemma OneStepObserved(plan: Plan, env: Env, k: nat)
    requires k < |plan.steps|
    ensures var (results, failure) := Observe(env, k, plan.observers, BoundTo(plan.observers, plan.steps[k].id), plan.steps[k]);
      StepObserved(plan, env, k, results, failure.None?)
  {
    hide Observation, Observe, BoundTo, ObservedAt;
    var t := plan.steps[k];
    var bound := BoundTo(plan.observers, t.id);
    BoundAreAll(plan.observers, t.id);
    ObserveRecords(env, k, plan.observers, bound, t);
    FirstAreObserved(plan, env, k, Observe(env, k, plan.observers, bound, t).0, Observe(env, k, plan.observers, bound, t).1.None?, bound);
  }

  lemma FirstAreObserved(plan: Plan, env: Env, k: nat, observed: seq<ObserverResult>, all: bool, bound: seq<nat>)
    requires k < |plan.steps| && InOrder(bound) && Places(plan.observers, bound) && |observed| <= |bound|
    requires forall i: nat :: i in bound <==> i < |plan.observers| && plan.observers[i].after == plan.steps[k].id
    requires forall j :: 0 <= j < |observed| ==> observed[j] == Observation(env, k, bound[j], plan.observers[bound[j]], plan.steps[k])
    requires forall j :: 0 <= j < |observed| - 1 ==> observed[j].ok
    requires if all then |observed| == |bound| && forall j :: 0 <= j < |observed| ==> observed[j].ok else observed != [] && !observed[|observed| - 1].ok
    ensures ObservedAt(plan, env, k, observed, all, bound[..|observed|])
  {
    hide Observation;
    FirstAreBound(plan.observers, plan.steps[k].id, bound, |observed|);
  }

  lemma FirstAreBound(observers: seq<Observer>, id: string, bound: seq<nat>, n: nat)
    requires InOrder(bound) && n <= |bound| && forall i: nat :: i in bound <==> i < |observers| && observers[i].after == id
    ensures InOrder(bound[..n])
    ensures forall j :: 0 <= j < n ==> bound[..n][j] == bound[j] && bound[j] < |observers| && observers[bound[j]].after == id
    ensures n > 0 || n == |bound| ==>
      forall i: nat :: i < |observers| && observers[i].after == id ==> i in bound[..n] || (n < |bound| && bound[n - 1] < i)
  {
    assert forall j :: 0 <= j < |bound| ==> bound[j] in bound;
    forall i: nat | (n > 0 || n == |bound|) && i in bound
      ensures i in bound[..n] || (n < |bound| && bound[n - 1] < i)
    {
      var j :| 0 <= j < |bound| && bound[j] == i;
      if j < n {
        assert bound[..n][j] == i;
      }
    }
  }

  /** How many steps the observers were asked about. */
  function Asked(p: Progress): nat {
    if Behind(p) then |p.steps| - 1 else |p.steps|
  }

  predicate NoObserverFailed(p: Progress) {
    p.failure.Some? ==> p.failure.value.phase != ObserverPhase
  }

  lemma TurnObserves(plan: Plan, env: Env, p: Progress, n: nat)
    requires n < |plan.steps| && UnderWay(plan, env, p, n) && AllObserved(plan, env, n, p.observers, true)
    ensures var q := Turn(plan, env, p, n);
      Asked(q) <= |plan.steps| && AllObserved(plan, env, Asked(q), q.observers, NoObserverFailed(q))
  {
    hide Observe, BoundTo, Recorded, ActionOk, SafeCode, Stands, StepObserved;
    var t := plan.steps[n];
    RecordedOkIff(env, n, t);
    var q := Turn(plan, env, p, n);
    if !env.abortedBefore(n) && !env.abortedAfter(n) && ActionOk(env, n, t) {
      OneStepObserved(plan, env, n);
      ObserveRecords(env, n, plan.observers, BoundTo(plan.observers, t.id), t);
      assert q.observers[..|p.observers|] == p.observers;
      hide AllObserved;
      OneMoreObserved(plan, env, n, p.observers, q.observers[|p.observers|..], NoObserverFailed(q));
      assert q.observers == p.observers + q.observers[|p.observers|..];
    }
  }

  lemma OneMoreObserved(plan: Plan, env: Env, n: nat, before: seq<ObserverResult>, more: seq<ObserverResult>, all: bool)
    requires n < |plan.steps| && AllObserved(plan, env, n, before, true) && StepObserved(plan, env, n, more, all)
    ensures AllObserved(plan, env, n + 1, before + more, all)
  {
    hide StepObserved;
    assert (before + more)[..|before|] == before && (before + more)[|before|..] == more;
  }

  lemma {:induction false} LoopObserves(plan: Plan, env: Env, n: nat)
    requires n <= |plan.steps|
    ensures var p := Loop(plan, env, n);
      && Asked(p) <= |plan.steps| && AllObserved(plan, env, Asked(p), p.observers, NoObserverFailed(p))
  {
    hide Turn, Stands, AllObserved;
    if n == 0 {
      assert AllObserved(plan, env, 0, [], true) by { NothingObserved(plan, env); }
    } else {
      LoopObserves(plan, env, n - 1);
      LoopStands(plan, env, n - 1);
      if Loop(plan, env, n - 1).failure.None? {
        TurnObserves(plan, env, Loop(plan, env, n - 1), n - 1);
      }
    }
  }

  lemma NothingObserved(plan: Plan, env: Env)
    ensures AllObserved(plan, env, 0, [], true)
  {
  }

  /**
   In every execution the observations are, step by step and in the order of the plan, those of
   exactly the observers that come after each step; only the last step's can be incomplete, when
   an observer failed, and then the failure names the one whose observation is the last.
   */
  lemma ObservationsAreComplete(plan: Plan, env: Env)
    ensures var p := Loop(plan, env, |plan.steps|);
      && Run(plan, env).progress.observers == p.observers && Run(plan, env).progress.steps == p.steps
      && Asked(p) <= |plan.steps| && AllObserved(plan, env, Asked(p), p.observers, NoObserverFailed(p))
  {
    hide Loop, AllObserved, SafeCode;
    LoopObserves(plan, env, |plan.steps|);
  }

  lemma {:induction false} ObservedIsThere(plan: Plan, env: Env, n: nat, observed: seq<ObserverResult>, k: nat, i: nat) returns (o: ObserverResult)
    requires k < n <= |plan.steps| && AllObserved(plan, env, n, observed, true)
    requires i < |plan.observers| && plan.observers[i].after == plan.steps[k].id
    ensures o in observed && o.ok && o == Observation(env, k, i, plan.observers[i], plan.steps[k])
  {
    hide StepObserved, Observation;
    var m: nat :| m <= |observed| && AllObserved(plan, env, n - 1, observed[..m], true) && StepObserved(plan, env, n - 1, observed[m..], true);
    if k == n - 1 {
      o := ObservedInStep(plan, env, k, observed[m..], i);
    } else {
      hide AllObserved;
      o := ObservedIsThere(plan, env, n - 1, observed[..m], k, i);
    }
  }

  lemma ObservedInStep(plan: Plan, env: Env, k: nat, observed: seq<ObserverResult>, i: nat) returns (o: ObserverResult)
    requires k < |plan.steps| && StepObserved(plan, env, k, observed, true)
    requires i < |plan.observers| && plan.observers[i].after == plan.steps[k].id
    ensures o in observed && o.ok && o == Observation(env, k, i, plan.observers[i], plan.steps[k])
  {
    hide Observation;
    var places :| ObservedAt(plan, env, k, observed, true, places);
    var j :| 0 <= j < |places| && places[j] == i;
    o := observed[j];
  }

  /** A success records, for every step and every observer that comes after it, an ok observation. */
  lemma SuccessIsObserved(plan: Plan, env: Env, k: nat, i: nat) returns (o: ObserverResult)
    requires Run(plan, env).progress.status == Succeeded
    requires k < |plan.steps| && i < |plan.observers| && plan.observers[i].after == plan.steps[k].id
    ensures o in Run(plan, env).progress.observers && o.ok && o.observerId == plan.observers[i].id && o.transitionId == plan.steps[k].id
  {
    hide Loop, AllObserved, SafeCode, Stands, Observation;
    SuccessRunsThePlan(plan, env);
    ObservationsAreComplete(plan, env);
    o := ObservedIsThere(plan, env, |plan.steps|, Run(plan, env).progress.observers, k, i);
    ObservationIsOf(env, k, i, plan.observers[i], plan.steps[k]);
  }

  // ---------------------------------------------------------------------------------------
  // Which trouble is named
  // ---------------------------------------------------------------------------------------

  /** The code for a refusal: fixed for an exception and for no record, else the callback's own if it is safe. */
  function RefusalCode(raw: Raw, thrown: string, invalid: string, rejected: string): string {
    match raw
    case Throws => thrown
    case NoRecord => invalid
    case Record(_, code, _) => if code.Some? && SafePattern(code.value) then code.value else rejected
  }

  lemma FixedCodesAreSafe()
    ensures SafePattern("action_exception") && SafePattern("action_invalid_result")
    ensures SafePattern("observer_exception") && SafePattern("observer_invalid_result")
  {
  }

  predicate Confirms(raw: Raw) {
    raw.Record? && raw.ok == Some(true)
  }

  /** What the first step that does not pass makes of the journey. */
  ghost predicate Names(plan: Plan, env: Env, p: Progress, k: nat)
    requires k < |plan.steps|
  {
    var t := plan.steps[k];
    if env.abortedBefore(k) then
      p.status == Aborted && |p.steps| == k && p.failure == Some(Failure(TimeoutPhase, "journey_aborted", None))
    else
      && |p.steps| == k + 1
      && (if env.abortedAfter(k) then p.status == Aborted && p.failure == Some(Failure(TimeoutPhase, "journey_timeout", Some(t.id)))
          else
            && p.status == Failed && p.failure.Some?
            && (if !Confirms(env.action(k)) then
                  p.failure.value == Failure(ActionPhase, RefusalCode(env.action(k), "action_exception", "action_invalid_result", "action_rejected"), Some(t.id))
                else if env.action(k).observed != Some(t.to) then p.failure.value == Failure(ActionPhase, "observed_state_mismatch", Some(t.id))
                else exists i: nat :: FirstRefusal(plan, env, k, i) && p.failure.value == ObserverFailure(env, k, i, plan.observers[i])))
  }

  /** Of the observers that come after the step, the first in the plan that does not confirm. */
  ghost predicate FirstRefusal(plan: Plan, env: Env, k: nat, i: nat)
    requires k < |plan.steps|
  {
    && i < |plan.observers| && plan.observers[i].after == plan.steps[k].id && !Confirms(env.check(k, i))
    && forall j: nat :: j < i && plan.observers[j].after == plan.steps[k].id ==> Confirms(env.check(k, j))
  }

  function ObserverFailure(env: Env, k: nat, i: nat, o: Observer): Failure {
    Failure(ObserverPhase, RefusalCode(env.check(k, i), "observer_exception", "observer_invalid_result", "observer_rejected"), Some(o.id))
  }

  lemma ActionTrouble(env: Env, k: nat, t: G.Transition)
    ensures ActionOk(env, k, t) <==> Confirms(env.action(k)) && env.action(k).observed == Some(t.to)
    ensures ActionFailure(env, k, t) == Failure(ActionPhase,
      if Confirms(env.action(k)) then "observed_state_mismatch" else RefusalCode(env.action(k), "action_exception", "action_invalid_result", "action_rejected"), Some(t.id))
  {
    FixedCodesAreSafe();
    hide SafePattern;
  }

  lemma ObserverTrouble(env: Env, k: nat, i: nat, o: Observer, t: G.Transition)
    ensures Observation(env, k, i, o, t).ok <==> Confirms(env.check(k, i))
    ensures !Observation(env, k, i, o, t).ok ==>
      Failure(ObserverPhase, Observation(env, k, i, o, t).code.value, Some(o.id)) == ObserverFailure(env, k, i, o)
  {
    FixedCodesAreSafe();
    hide SafePattern;
  }

  lemma {:induction false} FirstRefusalIsNamed(env: Env, k: nat, observers: seq<Observer>, bound: seq<nat>, t: G.Transition) returns (j: nat)
    requires Places(observers, bound) && Observe(env, k, observers, bound, t).1.Some?
    ensures j < |bound| && !Confirms(env.check(k, bound[j])) && forall a :: 0 <= a < j ==> Confirms(env.check(k, bound[a]))
    ensures Observe(env, k, observers, bound, t).1.value == ObserverFailure(env, k, bound[j], observers[bound[j]])
  {
    hide Observation, Confirms, ObserverFailure;
    var n: nat := |bound| - 1;
    ObserverTrouble(env, k, bound[n], observers[bound[n]], t);
    if Observe(env, k, observers, bound[..n], t).1.Some? {
      j := FirstRefusalIsNamed(env, k, observers, bound[..n], t);
    } else {
      ObserveRecords(env, k, observers, bound[..n], t);
      forall a | 0 <= a < n
        ensures Confirms(env.check(k, bound[a]))
      {
        ObserverTrouble(env, k, bound[a], observers[bound[a]], t);
        assert bound[..n][a] == bound[a];
      }
      j := n;
    }
  }

  lemma TurnNames(plan: Plan, env: Env, p: Progress, k: nat)
    requires k < |plan.steps| && UnderWay(plan, env, p, k) && Turn(plan, env, p, k).failure.Some?
    ensures Names(plan, env, Turn(plan, env, p, k), k)
  {
    hide Stands, Observe, Recorded, ActionOk, ActionFailure, BoundTo, RefusalCode, Confirms, ObserverFailure;
    var t := plan.steps[k];
    ActionTrouble(env, k, t);
    if !env.abortedBefore(k) && !env.abortedAfter(k) && ActionOk(env, k, t) {
      var bound := BoundTo(plan.observers, t.id);
      BoundAreAll(plan.observers, t.id);
      ObserveRecords(env, k, plan.observers, bound, t);
      var j := FirstRefusalIsNamed(env, k, plan.observers, bound, t);
      var i := bound[j];
      assert i in bound;
      forall a: nat | a < i && plan.observers[a].after == t.id
        ensures Confirms(env.check(k, a))
      {
        assert a in bound;
        var b :| 0 <= b < |bound| && bound[b] == a;
        assert b < j;
      }
      assert FirstRefusal(plan, env, k, i);
    }
  }

  /** A journey that does not succeed before cleanup names the trouble of the first step that did not pass. */
  lemma FirstTroubleIsNamed(plan: Plan, env: Env, k: nat)
    requires k < |plan.steps| && !StepPasses(plan, env, k) && forall j: nat :: j < k ==> StepPasses(plan, env, j)
    ensures Names(plan, env, Run(plan, env).progress, k)
  {
    hide Turn, StepPasses, Stands, Names;
    LoopSucceedsIff(plan, env, k);
    LoopSucceedsIff(plan, env, k + 1);
    LoopStands(plan, env, k);
    TurnNames(plan, env, Loop(plan, env, k), k);
    StoppedLoopStays(plan, env, k + 1, |plan.steps|);
    LoopStands(plan, env, k + 1);
    StoppedIsNotSucceeded(plan, env, Loop(plan, env, k + 1));
  }

  lemma StoppedIsNotSucceeded(plan: Plan, env: Env, p: Progress)
    requires Stands(plan, env, p) && p.failure.Some?
    ensures Finish(p, env.cleanup).progress == p
  {
    hide SafeCode;
  }

  /** Refused cleanup fails a journey that had succeeded, and leaves one that had not as it was. */
  lemma CleanupTrouble(plan: Plan, env: Env)
    requires (forall k: nat :: k < |plan.steps| ==> StepPasses(plan, env, k)) && !CleanupOk(env.cleanup)
    ensures var e := Run(plan, env);
      && e.progress.status == Failed && !e.cleanup.ok && e.cleanup.code.Some?
      && e.progress.failure == Some(Failure(CleanupPhase, e.cleanup.code.value, None))
      && e.cleanup.code.value == RefusalCode(env.cleanup, "cleanup_exception", "", "cleanup_rejected")
  {
    hide Loop, StepPasses, SafePattern, Stands;
    LoopSucceedsIff(plan, env, |plan.steps|);
    LoopStands(plan, env, |plan.steps|);
  }
}
