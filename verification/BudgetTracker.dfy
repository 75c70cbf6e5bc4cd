/** The per-run budget tracker: admission, charging and halting, as the object whose state field every call replaces. */
module BudgetTracker {
  import opened Results
  import opened Strings

  datatype Price = Price(inputPerMtok: real, outputPerMtok: real)

  datatype LlmCall = LlmCall(model: string, tokensIn: int, tokensOut: int)

  datatype State = State(limit: Option<real>, spent: real, tokensIn: int, tokensOut: int, calls: nat, exhausted: bool,
                         pricingError: Option<string>, halted: Option<string>)

  datatype Error = CallInvalid | Unpriced | Blocked(reason: string) | Exhausted | ReasonRequired

  const MAX_SAFE_INTEGER: int := 9007199254740991

  predicate ValidCall(c: LlmCall) {
    !Blank(c.model) && 0 <= c.tokensIn <= MAX_SAFE_INTEGER && 0 <= c.tokensOut <= MAX_SAFE_INTEGER
  }

  function Cost(p: Price, c: LlmCall): real {
    c.tokensIn as real / 1000000.0 * p.inputPerMtok + c.tokensOut as real / 1000000.0 * p.outputPerMtok
  }

  predicate Reached(limit: Option<real>, amount: real) {
    limit.Some? && amount >= limit.value
  }

  function Fresh(limit: Option<real>): State {
    State(limit, 0.0, 0, 0, 0, false, None, None)
  }

  function Charged(s: State, pricing: map<string, Price>, c: LlmCall): State {
    var counted := s.(tokensIn := s.tokensIn + c.tokensIn, tokensOut := s.tokensOut + c.tokensOut, calls := s.calls + 1);
    if c.model !in pricing then counted.(exhausted := true, pricingError := Some(c.model))
    else
      var spent := s.spent + Cost(pricing[c.model], c);
      counted.(spent := spent, exhausted := Reached(s.limit, spent))
  }

  function Halted(s: State, reason: string): State {
    s.(exhausted := true, halted := Some(Truncate(Trim(reason), 200)))
  }

  /** assertCanDispatch: what it answers for a call. */
  function Dispatch(s: State, pricing: map<string, Price>, c: LlmCall): Result<(), Error> {
    if !ValidCall(c) then Err(CallInvalid)
    else if s.halted.Some? then Err(Blocked(s.halted.value))
    else if c.model !in pricing || Reached(s.limit, s.spent + Cost(pricing[c.model], c)) then Err(Exhausted)
    else Ok(())
  }

  class BudgetTracker {
    const pricing: map<string, Price>
    var state: State

    constructor (limit: Option<real>, pricing: map<string, Price>)
      ensures state == Fresh(limit) && this.pricing == pricing
    {
      this.pricing := pricing;
      state := State(limit, 0.0, 0, 0, 0, false, None, None);
    }

    method CostOf(c: LlmCall) returns (r: Result<real, Error>)
      ensures r == if !ValidCall(c) then Err(CallInvalid) else if c.model !in pricing then Err(Unpriced) else Ok(Cost(pricing[c.model], c))
    {
      if !ValidCall(c) {
        return Err(CallInvalid);
      }
      if c.model !in pricing {
        return Err(Unpriced);
      }
      return Ok(Cost(pricing[c.model], c));
    }

    method WouldExhaust(c: LlmCall) returns (r: bool)
      requires ValidCall(c)
      ensures r <==> c.model !in pricing || Reached(state.limit, state.spent + Cost(pricing[c.model], c))
    {
      if c.model !in pricing {
        return true;
      }
      if state.limit.None? {
        return false;
      }
      var next := CostOf(c);
      return state.spent + next.value >= state.limit.value;
    }

    method AssertCanDispatch(c: LlmCall) returns (r: Result<(), Error>)
      ensures r == Dispatch(state, pricing, c)
    {
      if !ValidCall(c) {
        return Err(CallInvalid);
      }
      if state.halted.Some? {
        return Err(Blocked(state.halted.value));
      }
      var over := WouldExhaust(c);
      if over {
        return Err(Exhausted);
      }
      return Ok(());
    }

    method Charge(c: LlmCall) returns (r: Result<State, Error>)
      modifies this
      ensures r == if ValidCall(c) then Ok(state) else Err(CallInvalid)
      ensures state == if ValidCall(c) then Charged(old(state), pricing, c) else old(state)
    {
      if !ValidCall(c) {
        return Err(CallInvalid);
      }
      state := state.(tokensIn := state.tokensIn + c.tokensIn, tokensOut := state.tokensOut + c.tokensOut, calls := state.calls + 1);
      if c.model !in pricing {
        state := state.(exhausted := true, pricingError := Some(c.model));
        return Ok(state);
      }
      var usd := CostOf(c);
      state := state.(spent := state.spent + usd.value, exhausted := state.limit.Some? && state.spent + usd.value >= state.limit.value);
      return Ok(state);
    }

    method Halt(reason: string) returns (r: Result<State, Error>)
      modifies this
      ensures r == if Blank(reason) then Err(ReasonRequired) else Ok(state)
      ensures state == if Blank(reason) then old(state) else Halted(old(state), reason)
    {
      var normalized := Truncate(Trim(reason), 200);
      if normalized == "" {
        return Err(ReasonRequired);
      }
      state := state.(exhausted := true, halted := Some(normalized));
      return Ok(state);
    }
  }

  // ---------------------------------------------------------------------------------------
  // Runs
  // ---------------------------------------------------------------------------------------

  datatype Op = ChargeOp(call: LlmCall) | HaltOp(reason: string)

  function Apply(s: State, pricing: map<string, Price>, op: Op): State {
    match op
    case ChargeOp(c) => if ValidCall(c) then Charged(s, pricing, c) else s
    case HaltOp(reason) => if Blank(reason) then s else Halted(s, reason)
  }

  function ApplyAll(s: State, pricing: map<string, Price>, ops: seq<Op>): State {
    if ops == [] then s else Apply(ApplyAll(s, pricing, ops[..|ops| - 1]), pricing, ops[|ops| - 1])
  }

  /** What a run charged at known prices. */
  function TotalCost(pricing: map<string, Price>, ops: seq<Op>): real {
    if ops == [] then 0.0
    else
      var op := ops[|ops| - 1];
      TotalCost(pricing, ops[..|ops| - 1])
      + if op.ChargeOp? && ValidCall(op.call) && op.call.model in pricing then Cost(pricing[op.call.model], op.call) else 0.0
  }

  /** The tracker's spend is what the run charged, and its limit is the one it was built with. */
  lemma {:induction false} SpentIsCharged(limit: Option<real>, pricing: map<string, Price>, ops: seq<Op>)
    ensures var s := ApplyAll(Fresh(limit), pricing, ops); s.limit == limit && s.spent == TotalCost(pricing, ops)
  {
    hide Cost, Blank, Trim, Truncate, ValidCall;
    if ops != [] {
      SpentIsCharged(limit, pricing, ops[..|ops| - 1]);
    }
  }

  /** The valid charges of a run. */
  function ValidCharges(ops: seq<Op>): seq<LlmCall> {
    if ops == [] then []
    else
      var op := ops[|ops| - 1];
      ValidCharges(ops[..|ops| - 1]) + if op.ChargeOp? && ValidCall(op.call) then [op.call] else []
  }

  function TokensIn(calls: seq<LlmCall>): int {
    if calls == [] then 0 else TokensIn(calls[..|calls| - 1]) + calls[|calls| - 1].tokensIn
  }

  function TokensOut(calls: seq<LlmCall>): int {
    if calls == [] then 0 else TokensOut(calls[..|calls| - 1]) + calls[|calls| - 1].tokensOut
  }

  /** The tracker counts the valid charges and their tokens, priced or not. */
  lemma {:induction false} TokensAreCounted(limit: Option<real>, pricing: map<string, Price>, ops: seq<Op>)
    ensures var s, calls := ApplyAll(Fresh(limit), pricing, ops), ValidCharges(ops);
      s.calls == |calls| && s.tokensIn == TokensIn(calls) && s.tokensOut == TokensOut(calls)
  {
    hide Apply, ValidCall, TokensIn, TokensOut;
    if ops == [] {
      NoTokens();
    } else {
      var before, op := ops[..|ops| - 1], ops[|ops| - 1];
      TokensAreCounted(limit, pricing, before);
      ApplyCounts(ApplyAll(Fresh(limit), pricing, before), pricing, op);
      if op.ChargeOp? && ValidCall(op.call) {
        OneMoreCounted(ValidCharges(before), op.call);
      } else {
        assert ValidCharges(before) + [] == ValidCharges(before);
      }
    }
  }

  lemma NoTokens()
    ensures TokensIn([]) == 0 && TokensOut([]) == 0
  {
  }

  lemma ApplyCounts(s: State, pricing: map<string, Price>, op: Op)
    ensures var t := Apply(s, pricing, op);
      if op.ChargeOp? && ValidCall(op.call) then
        t.calls == s.calls + 1 && t.tokensIn == s.tokensIn + op.call.tokensIn && t.tokensOut == s.tokensOut + op.call.tokensOut
      else t.calls == s.calls && t.tokensIn == s.tokensIn && t.tokensOut == s.tokensOut
  {
    hide Cost, Blank, Trim, Truncate, ValidCall, Reached;
  }

  lemma OneMoreCounted(calls: seq<LlmCall>, c: LlmCall)
    ensures TokensIn(calls + [c]) == TokensIn(calls) + c.tokensIn && TokensOut(calls + [c]) == TokensOut(calls) + c.tokensOut
  {
    assert (calls + [c])[..|calls|] == calls;
  }

  /** A million tokens in cost the one price, a million tokens out the other, and tokens cost in proportion. */
  lemma CostIsProportional(p: Price, model: string, tokensIn: int, tokensOut: int)
    ensures Cost(p, LlmCall(model, 1000000, 0)) == p.inputPerMtok && Cost(p, LlmCall(model, 0, 1000000)) == p.outputPerMtok
    ensures 1000000.0 * Cost(p, LlmCall(model, tokensIn, tokensOut)) == tokensIn as real * p.inputPerMtok + tokensOut as real * p.outputPerMtok
  {
  }

  /** Once halted, no later charge or halt lets any call be dispatched again. */
  lemma {:induction false} HaltIsPermanent(s: State, pricing: map<string, Price>, ops: seq<Op>, c: LlmCall)
    requires s.halted.Some?
    ensures ApplyAll(s, pricing, ops).halted.Some? && Dispatch(ApplyAll(s, pricing, ops), pricing, c).Err?
  {
    hide Cost, Blank, Trim, Truncate, ValidCall;
    if ops != [] {
      HaltIsPermanent(s, pricing, ops[..|ops| - 1], c);
    }
  }

  /**
   The exhausted flag of a halted tracker is not permanent: a call already under way that is
   charged afterwards leaves it set exactly when its model has no price or the limit is reached.
   */
  lemma ExhaustedAfterLateChargeIff(s: State, pricing: map<string, Price>, reason: string, c: LlmCall)
    requires ValidCall(c) && !Blank(reason)
    ensures ApplyAll(s, pricing, [HaltOp(reason), ChargeOp(c)]).exhausted <==>
      c.model !in pricing || Reached(s.limit, s.spent + Cost(pricing[c.model], c))
  {
    hide Cost, Trim, Truncate, Blank;
    var ops := [HaltOp(reason), ChargeOp(c)];
    assert ops[..1] == [HaltOp(reason)] && ops[..1][..0] == [];
    assert ApplyAll(s, pricing, ops[..1]) == Halted(s, reason);
  }

  lemma HaltedCanStopBeingExhausted()
    ensures var pricing, c := map["m" := Price(1.0, 1.0)], LlmCall("m", 0, 0);
      var s := ApplyAll(Fresh(Some(1.0)), pricing, [HaltOp("stop"), ChargeOp(c)]);
      s.halted.Some? && !s.exhausted
  {
    var pricing, c := map["m" := Price(1.0, 1.0)], LlmCall("m", 0, 0);
    assert !IsSpace("m"[0]) && !IsSpace("stop"[0]);
    ExhaustedAfterLateChargeIff(Fresh(Some(1.0)), pricing, "stop", c);
    var ops := [HaltOp("stop"), ChargeOp(c)];
    assert ops[..1] == [HaltOp("stop")] && ops[..1][..0] == [];
    assert ApplyAll(Fresh(Some(1.0)), pricing, ops[..1]) == Halted(Fresh(Some(1.0)), "stop");
    hide Trim, Truncate, Cost;
  }

  /** Estimates that were admitted, each followed by a charge of no more. */
  ghost predicate AdmittedRun(s: State, pricing: map<string, Price>, estimates: seq<LlmCall>, actuals: seq<LlmCall>)
    requires |estimates| == |actuals|
    decreases |estimates|
  {
    estimates == [] ||
      (&& Dispatch(s, pricing, estimates[0]).Ok?
       && ValidCall(actuals[0]) && actuals[0].model in pricing
       && Cost(pricing[actuals[0].model], actuals[0]) <= Cost(pricing[estimates[0].model], estimates[0])
       && AdmittedRun(Charged(s, pricing, actuals[0]), pricing, estimates[1..], actuals[1..]))
  }

  function ChargeAll(s: State, pricing: map<string, Price>, calls: seq<LlmCall>): State
    decreases |calls|
  {
    if calls == [] then s else ChargeAll(Charged(s, pricing, calls[0]), pricing, calls[1..])
  }

  /** Calls made one at a time, each admitted and costing no more than its estimate, never reach the limit. */
  lemma {:induction false} AdmittedRunStaysBelow(s: State, pricing: map<string, Price>, estimates: seq<LlmCall>, actuals: seq<LlmCall>)
    requires |estimates| == |actuals| && AdmittedRun(s, pricing, estimates, actuals) && !s.exhausted && !Reached(s.limit, s.spent)
    ensures var t := ChargeAll(s, pricing, actuals); !t.exhausted && !Reached(t.limit, t.spent) && t.limit == s.limit
    decreases |estimates|
  {
    hide Cost, ValidCall;
    if estimates != [] {
      AdmittedRunStaysBelow(Charged(s, pricing, actuals[0]), pricing, estimates[1..], actuals[1..]);
    }
  }
}
