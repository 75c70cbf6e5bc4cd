/** The state graph validator, with its breadth-first search, and the evaluator of transition paths. */
module StateGraph {
  import opened Results
  import opened Strings

  datatype Node = Node(id: string, terminal: bool)

  datatype Transition = Transition(id: string, from: string, to: string, actor: string, action: string)

  datatype Graph = Graph(id: string, initial: string, states: seq<Node>, transitions: seq<Transition>)

  datatype Error =
    | BadGraphId | StateCount | TransitionCount | BadInitial | BadStateId(id: string) | DuplicateState(id: string) | InitialUndeclared
    | BadText(id: string) | BadEndpoint(id: string) | UnknownEndpoint(id: string) | DuplicateTransition(id: string) | LeavesTerminal(id: string)
    | Unreachable(states: seq<string>) | DeadEnds(states: seq<string>) | PathTooLong

  datatype Validation = Validation(stateCount: nat, transitionCount: nat, reachable: seq<string>)

  const MAX_STATES: nat := 256
  const MAX_TRANSITIONS: nat := 1024
  const MAX_PATH: nat := 4096

  predicate LowerAlnum(c: char) {
    'a' <= c <= 'z' || '0' <= c <= '9'
  }

  /** The state id pattern. */
  predicate ValidId(s: string) {
    1 <= |s| <= 64 && LowerAlnum(s[0]) && forall i :: 1 <= i < |s| ==> LowerAlnum(s[i]) || s[i] == '-'
  }

  predicate BoundedText(s: string) {
    1 <= |Trim(s)| <= 512
  }

  // ---------------------------------------------------------------------------------------
  // Structure
  // ---------------------------------------------------------------------------------------

  predicate Declares(states: seq<Node>, id: string) {
    exists i :: 0 <= i < |states| && states[i].id == id
  }

  predicate Terminal(states: seq<Node>, id: string) {
    exists i :: 0 <= i < |states| && states[i].id == id && states[i].terminal
  }

  predicate HasTransition(ts: seq<Transition>, id: string) {
    exists i :: 0 <= i < |ts| && ts[i].id == id
  }

  predicate Leaves(ts: seq<Transition>, id: string) {
    exists i :: 0 <= i < |ts| && ts[i].from == id
  }

  /** The first defect among the states, in the order of the checks. */
  function StateDefect(states: seq<Node>): Option<Error> {
    if states == [] then None
    else
      var before, last := states[..|states| - 1], states[|states| - 1];
      var earlier := StateDefect(before);
      if earlier.Some? then earlier
      else if !ValidId(last.id) then Some(BadStateId(last.id))
      else if Declares(before, last.id) then Some(DuplicateState(last.id))
      else None
  }

  function OneTransitionDefect(states: seq<Node>, before: seq<Transition>, t: Transition): Option<Error> {
    if !BoundedText(t.id) || !BoundedText(t.actor) || !BoundedText(t.action) then Some(BadText(t.id))
    else if !ValidId(t.from) || !ValidId(t.to) then Some(BadEndpoint(t.id))
    else if !Declares(states, t.from) || !Declares(states, t.to) then Some(UnknownEndpoint(t.id))
    else if HasTransition(before, t.id) then Some(DuplicateTransition(t.id))
    else if Terminal(states, t.from) then Some(LeavesTerminal(t.from))
    else None
  }

  function TransitionDefect(states: seq<Node>, ts: seq<Transition>): Option<Error> {
    if ts == [] then None
    else
      var before, last := ts[..|ts| - 1], ts[|ts| - 1];
      var earlier := TransitionDefect(states, before);
      if earlier.Some? then earlier else OneTransitionDefect(states, before, last)
  }

  function Defect(g: Graph): Option<Error> {
    if !BoundedText(g.id) then Some(BadGraphId)
    else if !(1 <= |g.states| <= MAX_STATES) then Some(StateCount)
    else if |g.transitions| > MAX_TRANSITIONS then Some(TransitionCount)
    else if !ValidId(g.initial) then Some(BadInitial)
    else if StateDefect(g.states).Some? then StateDefect(g.states)
    else if !Declares(g.states, g.initial) then Some(InitialUndeclared)
    else TransitionDefect(g.states, g.transitions)
  }

  // ---------------------------------------------------------------------------------------
  // Walks and reachability
  // ---------------------------------------------------------------------------------------

  /** The transitions lead, one after another, from a to b. */
  ghost predicate Walk(ts: seq<Transition>, a: string, steps: seq<Transition>, b: string) {
    if steps == [] then a == b
    else
      var last := steps[|steps| - 1];
      last in ts && last.to == b && Walk(ts, a, steps[..|steps| - 1], last.from)
  }

  ghost predicate Reachable(ts: seq<Transition>, a: string, b: string) {
    exists steps :: Walk(ts, a, steps, b)
  }

  lemma ReachableStep(ts: seq<Transition>, a: string, t: Transition)
    requires Reachable(ts, a, t.from) && t in ts
    ensures Reachable(ts, a, t.to)
  {
    var steps :| Walk(ts, a, steps, t.from);
    assert (steps + [t])[..|steps|] == steps;
    assert Walk(ts, a, steps + [t], t.to);
  }

  lemma StartIsReachable(ts: seq<Transition>, a: string)
    ensures Reachable(ts, a, a)
  {
    assert Walk(ts, a, [], a);
  }

  /** No transition leads out of the set. */
  predicate Closed(ts: seq<Transition>, found: seq<string>) {
    forall i :: 0 <= i < |ts| && ts[i].from in found ==> ts[i].to in found
  }

  lemma {:induction false} ClosedHoldsWalks(ts: seq<Transition>, found: seq<string>, a: string, steps: seq<Transition>, b: string)
    requires Closed(ts, found) && a in found && Walk(ts, a, steps, b)
    ensures b in found
  {
    if steps != [] {
      ClosedHoldsWalks(ts, found, a, steps[..|steps| - 1], steps[|steps| - 1].from);
    }
  }

  ghost predicate Distinct<T>(s: seq<T>) {
    forall i, j :: 0 <= i < j < |s| ==> s[i] != s[j]
  }

  /** The list holds every state reachable from the start, each once, and no other. */
  ghost predicate ListsReachable(ts: seq<Transition>, a: string, found: seq<string>) {
    Distinct(found) && forall s :: s in found <==> Reachable(ts, a, s)
  }

  /** Those of the states that are not in the list, in their order. */
  function Missing(states: seq<Node>, found: seq<string>): seq<string> {
    if states == [] then []
    else
      var last := states[|states| - 1].id;
      Missing(states[..|states| - 1], found) + if last in found then [] else [last]
  }

  /** The states that are not terminal and that no transition leaves, in their order. */
  function Stuck(states: seq<Node>, ts: seq<Transition>): seq<string> {
    if states == [] then []
    else
      var last := states[|states| - 1];
      Stuck(states[..|states| - 1], ts) + if !last.terminal && !Leaves(ts, last.id) then [last.id] else []
  }

  /** Every state can be reached and only terminal states end. */
  ghost predicate GraphOk(g: Graph) {
    && Defect(g).None?
    && (forall i :: 0 <= i < |g.states| ==> Reachable(g.transitions, g.initial, g.states[i].id))
    && (forall i :: 0 <= i < |g.states| ==> g.states[i].terminal || Leaves(g.transitions, g.states[i].id))
  }

  // ---------------------------------------------------------------------------------------
  // The search
  // ---------------------------------------------------------------------------------------

  /** States that are found and no longer queued have all their successors found. */
  ghost predicate Expanded(ts: seq<Transition>, found: seq<string>, queue: seq<string>) {
    forall i :: 0 <= i < |ts| && ts[i].from in found && ts[i].from !in queue ==> ts[i].to in found
  }

  ghost predicate OnlyReachable(ts: seq<Transition>, a: string, found: seq<string>) {
    forall i :: 0 <= i < |found| ==> Reachable(ts, a, found[i])
  }

  ghost function Ends(ts: seq<Transition>, a: string): set<string> {
    {a} + set i | 0 <= i < |ts| :: ts[i].to
  }

  ghost function Left(ts: seq<Transition>, a: string, found: seq<string>): set<string> {
    set s | s in Ends(ts, a) && s !in found
  }

  lemma FindingShrinks(ts: seq<Transition>, a: string, found: seq<string>, i: nat)
    requires i < |ts| && ts[i].to !in found
    ensures |Left(ts, a, found + [ts[i].to])| < |Left(ts, a, found)|
  {
    var s := ts[i].to;
    assert s in Ends(ts, a);
    assert Left(ts, a, found + [s]) == Left(ts, a, found) - {s};
  }

  method Search(ts: seq<Transition>, a: string) returns (found: seq<string>)
    ensures ListsReachable(ts, a, found)
  {
    hide Reachable, Left;
    found := [a];
    var queue := [a];
    StartIsReachable(ts, a);
    while |queue| > 0
      invariant Distinct(found) && a in found && OnlyReachable(ts, a, found) && Expanded(ts, found, queue)
      invariant forall i :: 0 <= i < |queue| ==> queue[i] in found
      decreases |Left(ts, a, found)|, |queue|
    {
      var current := queue[0];
      ghost var before := queue;
      ghost var known := found;
      queue := queue[1..];
      assert before == [current] + queue;
      for i := 0 to |ts|
        invariant Distinct(found) && a in found && current in found && OnlyReachable(ts, a, found)
        invariant forall k :: 0 <= k < |queue| ==> queue[k] in found
        invariant forall k :: 0 <= k < |ts| && ts[k].from in found && ts[k].from !in queue && ts[k].from != current ==> ts[k].to in found
        invariant forall k :: 0 <= k < i && ts[k].from == current ==> ts[k].to in found
        invariant (found == known && |queue| < |before|) || |Left(ts, a, found)| < |Left(ts, a, known)|
      {
        if ts[i].from == current && ts[i].to !in found {
          FoundIsReachable(ts, a, found, i);
          FindingShrinks(ts, a, found, i);
          found := found + [ts[i].to];
          queue := queue + [ts[i].to];
        }
      }
    }
    SearchIsComplete(ts, a, found);
  }

  lemma FoundIsReachable(ts: seq<Transition>, a: string, found: seq<string>, i: nat)
    requires i < |ts| && ts[i].from in found && OnlyReachable(ts, a, found)
    ensures Reachable(ts, a, ts[i].to)
  {
    hide Reachable;
    ReachableStep(ts, a, ts[i]);
  }

  lemma SearchIsComplete(ts: seq<Transition>, a: string, found: seq<string>)
    requires Distinct(found) && a in found && OnlyReachable(ts, a, found) && Expanded(ts, found, [])
    ensures ListsReachable(ts, a, found)
  {
    hide Walk;
    assert Closed(ts, found);
    forall s | Reachable(ts, a, s)
      ensures s in found
    {
      var steps :| Walk(ts, a, steps, s);
      ClosedHoldsWalks(ts, found, a, steps, s);
    }
    hide Reachable;
  }

  // ---------------------------------------------------------------------------------------
  // The validator
  // ---------------------------------------------------------------------------------------

  /** Declared ids are distinct, so a state's own record says whether the id is terminal. */
  ghost predicate Indexes(states: seq<Node>, index: map<string, Node>) {
    && (forall id :: id in index <==> Declares(states, id))
    && forall i :: 0 <= i < |states| ==> states[i].id in index && index[states[i].id] == states[i]
  }

  method CheckStates(g: Graph) returns (defect: Option<Error>, states: map<string, Node>)
    ensures defect == StateDefect(g.states)
    ensures defect.None? ==> Indexes(g.states, states)
  {
    hide ValidId, Declares, StateDefect, Indexes;
    states := map[];
    NothingIndexed();
    for i := 0 to |g.states|
      invariant StateDefect(g.states[..i]).None? && Indexes(g.states[..i], states)
    {
      var state := g.states[i];
      assert g.states[..i + 1][..i] == g.states[..i] && g.states[..i + 1] == g.states[..i] + [state];
      NextState(g.states[..i], state, states);
      if !ValidId(state.id) {
        DefectStays(g, i + 1);
        return Some(BadStateId(state.id)), states;
      }
      if state.id in states {
        DefectStays(g, i + 1);
        return Some(DuplicateState(state.id)), states;
      }
      states := states[state.id := state];
    }
    assert g.states[..|g.states|] == g.states;
    return None, states;
  }

  lemma NothingIndexed()
    ensures StateDefect([]).None? && Indexes([], map[])
  {
  }

  /** One more state: what the checks on it decide, and how it is indexed. */
  lemma NextState(before: seq<Node>, state: Node, states: map<string, Node>)
    requires StateDefect(before).None? && Indexes(before, states)
    ensures StateDefect(before + [state]) ==
      if !ValidId(state.id) then Some(BadStateId(state.id)) else if state.id in states then Some(DuplicateState(state.id)) else None
    ensures state.id !in states ==> Indexes(before + [state], states[state.id := state])
  {
    hide ValidId, Declares;
    assert (before + [state])[..|before|] == before;
    DeclaresAppend(before, state);
  }

  lemma DeclaresAppend(states: seq<Node>, n: Node)
    ensures forall id :: Declares(states + [n], id) <==> Declares(states, id) || id == n.id
  {
    assert (states + [n])[|states|] == n;
    assert forall i :: 0 <= i < |states| ==> (states + [n])[i] == states[i];
  }

  lemma {:induction false} DefectStays(g: Graph, n: nat)
    requires n <= |g.states| && StateDefect(g.states[..n]).Some?
    ensures StateDefect(g.states) == StateDefect(g.states[..n])
    decreases |g.states| - n
  {
    hide ValidId, Declares;
    if n < |g.states| {
      assert g.states[..n + 1][..n] == g.states[..n];
      DefectStays(g, n + 1);
    } else {
      assert g.states[..n] == g.states;
    }
  }

  lemma {:induction false} TransitionDefectStays(states: seq<Node>, ts: seq<Transition>, n: nat)
    requires n <= |ts| && TransitionDefect(states, ts[..n]).Some?
    ensures TransitionDefect(states, ts) == TransitionDefect(states, ts[..n])
    decreases |ts| - n
  {
    hide OneTransitionDefect;
    if n < |ts| {
      assert ts[..n + 1][..n] == ts[..n];
      TransitionDefectStays(states, ts, n + 1);
    } else {
      assert ts[..n] == ts;
    }
  }

  lemma HasTransitionAppend(ts: seq<Transition>, t: Transition)
    ensures forall id :: HasTransition(ts + [t], id) <==> HasTransition(ts, id) || id == t.id
    ensures forall id :: Leaves(ts + [t], id) <==> Leaves(ts, id) || id == t.from
  {
    assert (ts + [t])[|ts|] == t;
    assert forall i :: 0 <= i < |ts| ==> (ts + [t])[i] == ts[i];
  }

  lemma IndexedTerminal(states: seq<Node>, index: map<string, Node>, id: string)
    requires Indexes(states, index) && id in index
    ensures Terminal(states, id) <==> index[id].terminal
  {
    assert Declares(states, id);
    var i :| 0 <= i < |states| && states[i].id == id;
    assert index[id] == states[i];
  }

  method CheckTransitions(g: Graph, states: map<string, Node>) returns (defect: Option<Error>, outgoing: map<string, nat>)
    requires Indexes(g.states, states)
    ensures defect == TransitionDefect(g.states, g.transitions)
    ensures defect.None? ==> forall id :: id in outgoing <==> Leaves(g.transitions, id)
  {
    hide ValidId, BoundedText, Declares, Terminal;
    var seen: set<string> := {};
    outgoing := map[];
    for i := 0 to |g.transitions|
      invariant TransitionDefect(g.states, g.transitions[..i]).None?
      invariant forall id :: id in seen <==> HasTransition(g.transitions[..i], id)
      invariant forall id :: id in outgoing <==> Leaves(g.transitions[..i], id)
    {
      var t := g.transitions[i];
      assert g.transitions[..i + 1][..i] == g.transitions[..i] && g.transitions[..i + 1] == g.transitions[..i] + [t];
      HasTransitionAppend(g.transitions[..i], t);
      if t.from in states {
        IndexedTerminal(g.states, states, t.from);
      }
      defect := CheckTransition(g, states, seen, t);
      OneDefect(g.states, states, seen, g.transitions[..i], t);
      if defect.Some? {
        TransitionDefectStays(g.states, g.transitions, i + 1);
        return;
      }
      seen := seen + {t.id};
      outgoing := outgoing[t.from := (if t.from in outgoing then outgoing[t.from] else 0) + 1];
    }
    assert g.transitions[..|g.transitions|] == g.transitions;
    defect := None;
  }

  function FoundDefect(states: map<string, Node>, seen: set<string>, t: Transition): Option<Error> {
    if !BoundedText(t.id) || !BoundedText(t.actor) || !BoundedText(t.action) then Some(BadText(t.id))
    else if !ValidId(t.from) || !ValidId(t.to) then Some(BadEndpoint(t.id))
    else if t.from !in states || t.to !in states then Some(UnknownEndpoint(t.id))
    else if t.id in seen then Some(DuplicateTransition(t.id))
    else if states[t.from].terminal then Some(LeavesTerminal(t.from))
    else None
  }

  lemma OneDefect(states: seq<Node>, index: map<string, Node>, seen: set<string>, before: seq<Transition>, t: Transition)
    requires Indexes(states, index) && forall id :: id in seen <==> HasTransition(before, id)
    ensures FoundDefect(index, seen, t) == OneTransitionDefect(states, before, t)
  {
    hide ValidId, BoundedText, Declares, Terminal, HasTransition;
    if t.from in index {
      IndexedTerminal(states, index, t.from);
    }
  }

  method CheckTransition(g: Graph, states: map<string, Node>, seen: set<string>, t: Transition) returns (defect: Option<Error>)
    ensures defect == FoundDefect(states, seen, t)
  {
    if !BoundedText(t.id) || !BoundedText(t.actor) || !BoundedText(t.action) {
      return Some(BadText(t.id));
    }
    if !ValidId(t.from) || !ValidId(t.to) {
      return Some(BadEndpoint(t.id));
    }
    if t.from !in states || t.to !in states {
      return Some(UnknownEndpoint(t.id));
    }
    if t.id in seen {
      return Some(DuplicateTransition(t.id));
    }
    return if states[t.from].terminal then Some(LeavesTerminal(t.from)) else None;
  }

  /**
   The validator accepts exactly the graphs without a structural defect whose states can all be
   reached and whose only ends are terminal; else it names the first defect, or all unreachable
   states, or all dead ends.
   */
  method ValidateStateGraph(g: Graph) returns (r: Result<Validation, Error>)
    ensures r.Ok? <==> GraphOk(g)
    ensures r.Ok? ==> ListsReachable(g.transitions, g.initial, r.value.reachable)
    ensures r.Ok? ==> r.value.stateCount == |g.states| && r.value.transitionCount == |g.transitions|
    ensures Defect(g).Some? ==> r == Err(Defect(g).value)
    ensures Defect(g).None? && r.Err? ==> exists found :: ListsReachable(g.transitions, g.initial, found) && r.error == Complaint(g, found)
  {
    hide StateDefect, TransitionDefect, ValidId, BoundedText, Declares, Leaves, Reachable, ListsReachable;
    if !BoundedText(g.id) {
      return Err(BadGraphId);
    }
    if !(1 <= |g.states| <= MAX_STATES) {
      return Err(StateCount);
    }
    if |g.transitions| > MAX_TRANSITIONS {
      return Err(TransitionCount);
    }
    if !ValidId(g.initial) {
      return Err(BadInitial);
    }
    var defect, states := CheckStates(g);
    if defect.Some? {
      return Err(defect.value);
    }
    if g.initial !in states {
      return Err(InitialUndeclared);
    }
    var outgoing: map<string, nat>;
    defect, outgoing := CheckTransitions(g, states);
    if defect.Some? {
      return Err(defect.value);
    }
    var reachable := Search(g.transitions, g.initial);
    var unreachable, deadEnds := [], [];
    for i := 0 to |g.states|
      invariant unreachable == Missing(g.states[..i], reachable) && deadEnds == Stuck(g.states[..i], g.transitions)
    {
      assert g.states[..i + 1][..i] == g.states[..i];
      if g.states[i].id !in reachable {
        unreachable := unreachable + [g.states[i].id];
      }
      if !g.states[i].terminal && g.states[i].id !in outgoing {
        deadEnds := deadEnds + [g.states[i].id];
      }
    }
    assert g.states[..|g.states|] == g.states;
    NoneMissingIff(g.states, g.transitions, g.initial, reachable);
    NoneStuckIff(g.states, g.transitions);
    if |unreachable| > 0 {
      return Err(Unreachable(unreachable));
    }
    if |deadEnds| > 0 {
      return Err(DeadEnds(deadEnds));
    }
    return Ok(Validation(|g.states|, |g.transitions|, reachable));
  }

  function Complaint(g: Graph, found: seq<string>): Error {
    var missing := Missing(g.states, found);
    if missing != [] then Unreachable(missing) else DeadEnds(Stuck(g.states, g.transitions))
  }

  lemma {:induction false} NoneMissingIff(states: seq<Node>, ts: seq<Transition>, a: string, found: seq<string>)
    requires ListsReachable(ts, a, found)
    ensures Missing(states, found) == [] <==> forall i :: 0 <= i < |states| ==> Reachable(ts, a, states[i].id)
  {
    hide Reachable;
    if states != [] {
      var n := |states| - 1;
      NoneMissingIff(states[..n], ts, a, found);
      assert forall i :: 0 <= i < n ==> states[..n][i] == states[i];
      assert Missing(states, found) == [] <==> Missing(states[..n], found) == [] && Reachable(ts, a, states[n].id);
      hide Missing;
    }
  }

  lemma {:induction false} NoneStuckIff(states: seq<Node>, ts: seq<Transition>)
    ensures Stuck(states, ts) == [] <==> forall i :: 0 <= i < |states| ==> states[i].terminal || Leaves(ts, states[i].id)
  {
    hide Leaves;
    if states != [] {
      var n := |states| - 1;
      NoneStuckIff(states[..n], ts);
      assert forall i :: 0 <= i < n ==> states[..n][i] == states[i];
      var before, now := Stuck(states[..n], ts), Stuck(states, ts);
      assert now == [] <==> before == [] && (states[n].terminal || Leaves(ts, states[n].id));
      hide Stuck;
    }
  }

  /** The defect of the structure is none exactly when ids are valid and distinct, endpoints declared and terminal states left by nothing. */
  lemma NoDefectIff(g: Graph)
    ensures Defect(g).None? <==>
      && BoundedText(g.id) && 1 <= |g.states| <= MAX_STATES && |g.transitions| <= MAX_TRANSITIONS && ValidId(g.initial)
      && StatesOk(g.states) && Declares(g.states, g.initial) && TransitionsOk(g.states, g.transitions)
  {
    NoStateDefectIff(g.states);
    NoTransitionDefectIff(g.states, g.transitions);
    hide StateDefect, TransitionDefect, StatesOk, TransitionsOk, ValidId, BoundedText, Declares;
  }

  ghost predicate StatesOk(states: seq<Node>) {
    && (forall i :: 0 <= i < |states| ==> ValidId(states[i].id))
    && forall i, j :: 0 <= i < j < |states| ==> states[i].id != states[j].id
  }

  ghost predicate TransitionOk(states: seq<Node>, t: Transition) {
    && BoundedText(t.id) && BoundedText(t.actor) && BoundedText(t.action) && ValidId(t.from) && ValidId(t.to)
    && Declares(states, t.from) && Declares(states, t.to) && !Terminal(states, t.from)
  }

  ghost predicate TransitionsOk(states: seq<Node>, ts: seq<Transition>) {
    && (forall i :: 0 <= i < |ts| ==> TransitionOk(states, ts[i]))
    && forall i, j :: 0 <= i < j < |ts| ==> ts[i].id != ts[j].id
  }

  lemma {:induction false} NoStateDefectIff(states: seq<Node>)
    ensures StateDefect(states).None? <==> StatesOk(states)
  {
    hide ValidId;
    if states != [] {
      var n := |states| - 1;
      NoStateDefectIff(states[..n]);
      assert StatesOk(states) <==> StatesOk(states[..n]) && ValidId(states[n].id) && !Declares(states[..n], states[n].id);
    }
  }

  lemma {:induction false} NoTransitionDefectIff(states: seq<Node>, ts: seq<Transition>)
    ensures TransitionDefect(states, ts).None? <==> TransitionsOk(states, ts)
  {
    hide ValidId, BoundedText, Declares, Terminal;
    if ts != [] {
      var n := |ts| - 1;
      NoTransitionDefectIff(states, ts[..n]);
      assert TransitionsOk(states, ts) <==> TransitionsOk(states, ts[..n]) && TransitionOk(states, ts[n]) && !HasTransition(ts[..n], ts[n].id) by {
        hide TransitionOk;
      }
    }
  }

  /** A defect among the states is that of the first state that is invalid or repeats an id; those before it are sound. */
  lemma {:induction false} StateDefectIsFirst(states: seq<Node>)
    requires StateDefect(states).Some?
    ensures exists i :: 0 <= i < |states| && StatesOk(states[..i]) && SpoilsStates(states[..i], states[i], StateDefect(states).value)
  {
    hide ValidId, StatesOk;
    var n := |states| - 1;
    if StateDefect(states[..n]).Some? {
      StateDefectIsFirst(states[..n]);
      var i :| 0 <= i < n && StatesOk(states[..n][..i]) && SpoilsStates(states[..n][..i], states[..n][i], StateDefect(states[..n]).value);
      assert states[..n][..i] == states[..i] && states[..n][i] == states[i];
    } else {
      NoStateDefectIff(states[..n]);
      assert SpoilsStates(states[..n], states[n], StateDefect(states).value);
    }
  }

  ghost predicate SpoilsStates(before: seq<Node>, s: Node, e: Error) {
    match e
    case BadStateId(id) => id == s.id && !ValidId(s.id)
    case DuplicateState(id) => id == s.id && ValidId(s.id) && exists i :: 0 <= i < |before| && before[i].id == id
    case _ => false
  }

  /** What is found to be wrong with a transition is wrong with it, and what is checked ahead of that is not. */
  ghost predicate SpoilsTransitions(states: seq<Node>, before: seq<Transition>, t: Transition, e: Error) {
    match e
    case BadText(id) => id == t.id && !(BoundedText(t.id) && BoundedText(t.actor) && BoundedText(t.action))
    case BadEndpoint(id) => id == t.id && BoundedText(t.actor) && !(ValidId(t.from) && ValidId(t.to))
    case UnknownEndpoint(id) => id == t.id && ValidId(t.from) && ValidId(t.to) && !(Declares(states, t.from) && Declares(states, t.to))
    case DuplicateTransition(id) => id == t.id && Declares(states, t.from) && Declares(states, t.to) && HasTransition(before, id)
    case LeavesTerminal(id) => id == t.from && !HasTransition(before, t.id) && Terminal(states, id)
    case _ => false
  }

  lemma {:induction false} TransitionDefectIsFirst(states: seq<Node>, ts: seq<Transition>)
    requires TransitionDefect(states, ts).Some?
    ensures exists i :: 0 <= i < |ts| && TransitionsOk(states, ts[..i]) && SpoilsTransitions(states, ts[..i], ts[i], TransitionDefect(states, ts).value)
  {
    hide ValidId, BoundedText, Declares, Terminal, HasTransition, TransitionsOk;
    var n := |ts| - 1;
    if TransitionDefect(states, ts[..n]).Some? {
      TransitionDefectIsFirst(states, ts[..n]);
      var i :| 0 <= i < n && TransitionsOk(states, ts[..n][..i]) && SpoilsTransitions(states, ts[..n][..i], ts[..n][i], TransitionDefect(states, ts[..n]).value);
      assert ts[..n][..i] == ts[..i] && ts[..n][i] == ts[i];
    } else {
      NoTransitionDefectIff(states, ts[..n]);
      assert SpoilsTransitions(states, ts[..n], ts[n], TransitionDefect(states, ts).value);
    }
  }

  /** The complaint about a graph without a defect lists what it says: all states that cannot be reached, and only without such all dead ends. */
  lemma ComplaintIsTrue(g: Graph, found: seq<string>)
    requires ListsReachable(g.transitions, g.initial, found) && Defect(g).None? && !GraphOk(g)
    ensures match Complaint(g, found)
      case Unreachable(ids) => ids != [] && forall id :: id in ids <==> Declares(g.states, id) && !Reachable(g.transitions, g.initial, id)
      case DeadEnds(ids) =>
        && ids != [] && (forall id :: Declares(g.states, id) ==> Reachable(g.transitions, g.initial, id))
        && forall id :: id in ids <==> Declares(g.states, id) && !Terminal(g.states, id) && !Leaves(g.transitions, id)
      case _ => false
  {
    hide Reachable, Missing, Stuck, StateDefect, TransitionDefect, StatesOk, TransitionsOk, Leaves, BoundedText, ValidId;
    NoneMissingIff(g.states, g.transitions, g.initial, found);
    NoneStuckIff(g.states, g.transitions);
    NoDefectIff(g);
    MissingAre(g.states, found);
    assert StatesOk(g.states);
    StuckAre(g.states, g.transitions);
  }

  lemma {:induction false} MissingAre(states: seq<Node>, found: seq<string>)
    ensures forall id :: id in Missing(states, found) <==> Declares(states, id) && id !in found
  {
    if states != [] {
      var n := |states| - 1;
      MissingAre(states[..n], found);
      DeclaresAppend(states[..n], states[n]);
      assert states[..n] + [states[n]] == states;
    }
  }

  lemma {:induction false} StuckAre(states: seq<Node>, ts: seq<Transition>)
    requires StatesOk(states)
    ensures forall id :: id in Stuck(states, ts) <==> Declares(states, id) && !Terminal(states, id) && !Leaves(ts, id)
  {
    hide Leaves, ValidId;
    if states != [] {
      var n := |states| - 1;
      StuckAre(states[..n], ts);
      DeclaresAppend(states[..n], states[n]);
      assert states[..n] + [states[n]] == states;
      forall id
        ensures Terminal(states, id) <==> Terminal(states[..n], id) || (id == states[n].id && states[n].terminal)
      {
        assert forall i :: 0 <= i < n ==> states[..n][i] == states[i];
      }
      assert !Declares(states[..n], states[n].id);
    }
  }

  // ---------------------------------------------------------------------------------------
  // Paths
  // ---------------------------------------------------------------------------------------

  datatype Violation = UnknownTransition(id: string) | WrongState(id: string, expected: string, current: string)

  datatype PathResult = PathResult(reached: string, traversed: seq<string>, violations: seq<Violation>)

  function TransitionWith(ts: seq<Transition>, id: string): (r: Option<Transition>)
    ensures r.None? <==> !HasTransition(ts, id)
    ensures r.Some? ==> r.value in ts && r.value.id == id
  {
    if ts == [] then None
    else if ts[|ts| - 1].id == id then Some(ts[|ts| - 1])
    else
      var r := TransitionWith(ts[..|ts| - 1], id);
      assert forall i :: 0 <= i < |ts| - 1 ==> ts[..|ts| - 1][i] == ts[i];
      r
  }

  /** The replay: a transition that is unknown or does not start here is reported and skipped. */
  function Replay(ts: seq<Transition>, a: string, ids: seq<string>): PathResult {
    if ids == [] then PathResult(a, [], [])
    else
      var before, id := Replay(ts, a, ids[..|ids| - 1]), ids[|ids| - 1];
      var t := TransitionWith(ts, id);
      if t.None? then before.(violations := before.violations + [UnknownTransition(id)])
      else if t.value.from != before.reached then before.(violations := before.violations + [WrongState(id, t.value.from, before.reached)])
      else before.(reached := t.value.to, traversed := before.traversed + [id])
  }

  function IdsOf(steps: seq<Transition>): (r: seq<string>)
    ensures |r| == |steps|
  {
    if steps == [] then [] else IdsOf(steps[..|steps| - 1]) + [steps[|steps| - 1].id]
  }

  /** The steps of the walk that the replay took. */
  ghost function StepsTaken(ts: seq<Transition>, a: string, ids: seq<string>): seq<Transition> {
    if ids == [] then []
    else
      var t := TransitionWith(ts, ids[|ids| - 1]);
      var before := StepsTaken(ts, a, ids[..|ids| - 1]);
      if t.Some? && t.value.from == Replay(ts, a, ids[..|ids| - 1]).reached then before + [t.value] else before
  }

  /** Whatever the ids, the traversed ones are a connected walk from the start to the reached state, and every other id is a violation. */
  lemma {:induction false} ReplayIsAWalk(ts: seq<Transition>, a: string, ids: seq<string>)
    ensures var r, steps := Replay(ts, a, ids), StepsTaken(ts, a, ids);
      && Walk(ts, a, steps, r.reached) && IdsOf(steps) == r.traversed && |r.traversed| + |r.violations| == |ids|
  {
    if ids != [] {
      var n := |ids| - 1;
      ReplayIsAWalk(ts, a, ids[..n]);
      var before, t := StepsTaken(ts, a, ids[..n]), TransitionWith(ts, ids[n]);
      if t.Some? && t.value.from == Replay(ts, a, ids[..n]).reached {
        assert (before + [t.value])[..|before|] == before;
      }
    }
  }

  /** The replay of a path goes on from where the replay of its first part ended, whether or not that was valid. */
  lemma {:induction false} ReplayComposes(ts: seq<Transition>, a: string, first: seq<string>, second: seq<string>)
    ensures var p := Replay(ts, a, first);
      var q := Replay(ts, p.reached, second);
      Replay(ts, a, first + second) == PathResult(q.reached, p.traversed + q.traversed, p.violations + q.violations)
  {
    hide TransitionWith;
    if second == [] {
      assert first + second == first;
    } else {
      var n := |second| - 1;
      assert (first + second)[..|first| + n] == first + second[..n];
      ReplayComposes(ts, a, first, second[..n]);
    }
  }

  /** One id is refused exactly when its transition does not start here, and the violation says why: there is none, or it starts elsewhere. */
  lemma RefusalIsTrue(ts: seq<Transition>, a: string, id: string)
    requires forall i, j :: 0 <= i < j < |ts| ==> ts[i].id != ts[j].id
    ensures !HasTransition(ts, id) ==> Replay(ts, a, [id]) == PathResult(a, [], [UnknownTransition(id)])
    ensures forall i :: 0 <= i < |ts| && ts[i].id == id && ts[i].from == a ==> Replay(ts, a, [id]) == PathResult(ts[i].to, [id], [])
    ensures forall i :: 0 <= i < |ts| && ts[i].id == id && ts[i].from != a ==> Replay(ts, a, [id]) == PathResult(a, [], [WrongState(id, ts[i].from, a)])
  {
    hide TransitionWith;
    assert [id][..0] == [] && Replay(ts, a, []) == PathResult(a, [], []);
  }

  /** The path is valid exactly when its ids are those of a connected walk from the start, which it then reaches the end of. */
  lemma ValidIffWalk(ts: seq<Transition>, a: string, ids: seq<string>)
    requires forall i, j :: 0 <= i < j < |ts| ==> ts[i].id != ts[j].id
    ensures Replay(ts, a, ids).violations == [] <==> exists steps, b :: Walk(ts, a, steps, b) && IdsOf(steps) == ids
    ensures Replay(ts, a, ids).violations == [] ==> Replay(ts, a, ids).traversed == ids
  {
    hide Walk, Replay, StepsTaken, IdsOf;
    ReplayIsAWalk(ts, a, ids);
    if Replay(ts, a, ids).violations == [] {
      NoViolationTraversesAll(ts, a, ids);
      var steps, b := StepsTaken(ts, a, ids), Replay(ts, a, ids).reached;
      assert Walk(ts, a, steps, b) && IdsOf(steps) == ids;
    }
    if steps, b :| Walk(ts, a, steps, b) && IdsOf(steps) == ids {
      WalkReplays(ts, a, steps, b);
    }
  }

  lemma {:induction false} NoViolationTraversesAll(ts: seq<Transition>, a: string, ids: seq<string>)
    requires Replay(ts, a, ids).violations == []
    ensures Replay(ts, a, ids).traversed == ids
  {
    hide TransitionWith;
    if ids != [] {
      NoViolationTraversesAll(ts, a, ids[..|ids| - 1]);
    }
  }

  lemma {:induction false} WalkReplays(ts: seq<Transition>, a: string, steps: seq<Transition>, b: string)
    requires Walk(ts, a, steps, b) && forall i, j :: 0 <= i < j < |ts| ==> ts[i].id != ts[j].id
    ensures Replay(ts, a, IdsOf(steps)) == PathResult(b, IdsOf(steps), [])
  {
    if steps != [] {
      var n := |steps| - 1;
      WalkReplays(ts, a, steps[..n], steps[n].from);
      assert IdsOf(steps)[..n] == IdsOf(steps[..n]);
      var i :| 0 <= i < |ts| && ts[i] == steps[n];
      assert HasTransition(ts, steps[n].id);
      assert TransitionWith(ts, steps[n].id) == Some(steps[n]);
    }
  }

  method EvaluateStatePath(g: Graph, ids: seq<string>) returns (r: Result<PathResult, Error>)
    ensures r.Ok? <==> GraphOk(g) && |ids| <= MAX_PATH
    ensures r.Ok? ==> r.value == Replay(g.transitions, g.initial, ids)
    ensures r.Err? && GraphOk(g) ==> r.error == PathTooLong
  {
    hide GraphOk, Defect, TransitionWith, HasTransition;
    var validation := ValidateStateGraph(g);
    if validation.Err? {
      return Err(validation.error);
    }
    if |ids| > MAX_PATH {
      return Err(PathTooLong);
    }
    var transitions := IndexTransitions(g.transitions);
    var current := g.initial;
    var traversed: seq<string> := [];
    var violations: seq<Violation> := [];
    for i := 0 to |ids|
      invariant PathResult(current, traversed, violations) == Replay(g.transitions, g.initial, ids[..i])
    {
      assert ids[..i + 1][..i] == ids[..i];
      var id := ids[i];
      if id !in transitions {
        violations := violations + [UnknownTransition(id)];
      } else if transitions[id].from != current {
        violations := violations + [WrongState(id, transitions[id].from, current)];
      } else {
        traversed := traversed + [id];
        current := transitions[id].to;
      }
    }
    assert ids[..|ids|] == ids;
    return Ok(PathResult(current, traversed, violations));
  }

  method IndexTransitions(ts: seq<Transition>) returns (index: map<string, Transition>)
    ensures forall id :: id in index <==> TransitionWith(ts, id).Some?
    ensures forall id :: id in index ==> index[id] == TransitionWith(ts, id).value
  {
    index := map[];
    for i := 0 to |ts|
      invariant forall id :: id in index <==> TransitionWith(ts[..i], id).Some?
      invariant forall id :: id in index ==> index[id] == TransitionWith(ts[..i], id).value
    {
      assert ts[..i + 1][..i] == ts[..i];
      index := index[ts[i].id := ts[i]];
      hide HasTransition;
    }
    assert ts[..|ts|] == ts;
  }
}
