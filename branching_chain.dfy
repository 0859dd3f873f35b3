/** The branching prompt chain of SolnAI
    (SolnAI-agents/shared/examples/prompt_chains/branching_chain.py): steps
    keyed by id, each formatting its user prompt from the results so far,
    asking the model, storing the reply (and its processed form) and naming
    the next step statically, through a callable, or not at all. The chat
    model, `str()` of a stored value and `json.loads` are parameters; the
    walk is bounded by a step budget so that every model run ends. */
module BranchingChain {
  import opened Base
  import opened PyJson
  import ChainUtils

  /** What a step's "next_step" holds: None, a step id, a callable over the
      results (which may raise), or anything else. */
  datatype NextStep =
    | End
    | Static(id: string)
    | Dynamic(choose: map<string, Json> -> Result<string, string>)
    | Invalid

  /** A step's configuration. */
  datatype StepConfig = StepConfig(
    systemPrompt: string,
    userPromptTemplate: string,
    outputKey: string,
    nextStep: NextStep,
    processor: Option<string -> Json>,
    temperature: Option<real>,
    maxTokens: Option<int>)

  /** `generate_chat_completion` on the system and user messages, the
      temperature and the token limit: the reply, or the error raised. */
  type Llm = (string, string, real, int) -> Result<string, string>

  /** `str()` of a stored value, as `str.format` shows it. */
  type Show = Json -> string

  /** What `execute` raises. */
  datatype BranchError =
    | StepNotFound(id: string)
    | TemplateError(error: ChainUtils.ChainError)
    | LlmFailure(message: string)
    | NextStepFailed(message: string)
    | InvalidNextStep(id: string)
      /** The model's step budget ran out: the source has no such bound. */
    | StepBudgetExhausted

  const DefaultTemperature: real := 0.7
  const DefaultMaxTokens := 1000
  const InitialInputKey := "initial_input"
  const PathTakenKey := "path_taken"
  const ProcessedSuffix := "_processed"

  /** The keyword arguments `format(**self.results)` receives. */
  function Kwargs(results: map<string, Json>, show: Show): map<string, string>
  {
    map k | k in results :: show(results[k])
  }

  /** The reply of one step: the formatted prompt, then the model. */
  function StepResponse(step: StepConfig, results: map<string, Json>, show: Show, llm: Llm): Result<string, BranchError>
  {
    match ChainUtils.StrFormat(step.userPromptTemplate, Kwargs(results, show))
    case Err(e) => Err(TemplateError(e))
    case Ok(userPrompt) =>
      var temperature := if step.temperature.Some? then step.temperature.value else DefaultTemperature;
      var maxTokens := if step.maxTokens.Some? then step.maxTokens.value else DefaultMaxTokens;
      match llm(step.systemPrompt, userPrompt, temperature, maxTokens)
      case Err(m) => Err(LlmFailure(m))
      case Ok(response) => Ok(response)
  }

  /** The results after a step replied: the reply under output_key and,
      with a processor, its processed form under output_key + "_processed";
      nothing else changes. */
  function Stored(step: StepConfig, results: map<string, Json>, response: string): map<string, Json>
  {
    var withOutput := results[step.outputKey := JStr(response)];
    if step.processor.Some? then withOutput[step.outputKey + ProcessedSuffix := step.processor.value(response)] else withOutput
  }

  /** Every value passed to the format is `str()` of the stored value. */
  lemma {:induction false} KwargsShow(results: map<string, Json>, show: Show)
    ensures Kwargs(results, show).Keys == results.Keys
    ensures forall k :: k in results ==> Kwargs(results, show)[k] == show(results[k])
  {
  }

  /** A step stores its reply under output_key and, exactly when it has a
      processor, the processed reply under output_key + "_processed";
      every other entry is kept. */
  lemma {:induction false} StoredEntries(step: StepConfig, results: map<string, Json>, response: string)
    ensures var r := Stored(step, results, response);
      && step.outputKey in r && r[step.outputKey] == JStr(response)
      && (step.processor.Some? ==> step.outputKey + ProcessedSuffix in r && r[step.outputKey + ProcessedSuffix] == step.processor.value(response))
      && (forall k :: k in r <==> k in results || k == step.outputKey || (step.processor.Some? && k == step.outputKey + ProcessedSuffix))
      && (forall k :: k in results && k != step.outputKey && (step.processor.None? || k != step.outputKey + ProcessedSuffix) ==> r[k] == results[k])
  {
    assert |step.outputKey + ProcessedSuffix| > |step.outputKey|;
  }

  /** `_execute_step(step_id)` as a function of the results. */
  function StepOutcome(steps: map<string, StepConfig>, id: string, results: map<string, Json>, show: Show, llm: Llm): (r: Result<map<string, Json>, BranchError>)
    ensures id !in steps ==> r == Err(StepNotFound(id))
  {
    if id !in steps then Err(StepNotFound(id))
    else
      match StepResponse(steps[id], results, show, llm)
      case Err(e) => Err(e)
      case Ok(response) => Ok(Stored(steps[id], results, response))
  }

  /** One turn of the loop of `execute`: it stops (having raised or not)
      with the results so far, or goes on to the next id. */
  datatype Turn =
    | Stop(entries: map<string, Json>, error: Option<BranchError>)
    | Continue(entries: map<string, Json>, next: string)

  /** The turn for step `current`: run it, then read its next_step. */
  function Advance(steps: map<string, StepConfig>, entries: map<string, Json>, current: string, show: Show, llm: Llm): (t: Turn)
    ensures t.Continue? ==> current in steps
    ensures t.Continue? && steps[current].nextStep.Static? ==> t.next == steps[current].nextStep.id
    ensures t.Continue? && steps[current].nextStep.Dynamic? ==> steps[current].nextStep.choose(t.entries) == Ok(t.next)
    ensures t.Continue? ==> steps[current].nextStep.Static? || steps[current].nextStep.Dynamic?
    ensures t.Stop? && t.error.None? ==> current in steps && steps[current].nextStep.End?
    ensures current !in steps ==> t == Stop(entries, Some(StepNotFound(current)))
  {
    match StepOutcome(steps, current, entries, show, llm)
    case Err(e) => Stop(entries, Some(e))
    case Ok(after) =>
      match steps[current].nextStep
      case End => Stop(after, None)
      case Invalid => Stop(after, Some(InvalidNextStep(current)))
      case Static(next) => Continue(after, next)
      case Dynamic(choose) =>
        match choose(after)
        case Err(m) => Stop(after, Some(NextStepFailed(m)))
        case Ok(next) => Continue(after, next)
  }

  /** The results, the path taken and what was raised, if anything. */
  datatype Walked = Walked(entries: map<string, Json>, path: seq<string>, error: Option<BranchError>)

  /** The path with a truthy next id appended. */
  function Taken(path: seq<string>, next: string): seq<string>
  {
    if next != "" then path + [next] else path
  }

  /** The loop of `execute` from step `current`, with `path` taken so far
      and at most `fuel` more steps. */
  function Walk(steps: map<string, StepConfig>, entries: map<string, Json>, current: string, path: seq<string>,
                fuel: nat, show: Show, llm: Llm): Walked
    decreases fuel
  {
    if current == "" then Walked(entries, path, None)
    else if fuel == 0 then Walked(entries, path, Some(StepBudgetExhausted))
    else
      match Advance(steps, entries, current, show, llm)
      case Stop(after, error) => Walked(after, path, error)
      case Continue(after, next) => Walk(steps, after, next, Taken(path, next), fuel - 1, show, llm)
  }

  /** The path the walk reports extends the path taken so far by at most
      one id per step. */
  lemma {:induction false} WalkPathGrows(steps: map<string, StepConfig>, entries: map<string, Json>, current: string,
                                         path: seq<string>, fuel: nat, show: Show, llm: Llm)
    ensures var w := Walk(steps, entries, current, path, fuel, show, llm);
      |path| <= |w.path| <= |path| + fuel && w.path[..|path|] == path
    decreases fuel
  {
    if current != "" && fuel > 0 {
      var t := Advance(steps, entries, current, show, llm);
      if t.Continue? {
        var path' := Taken(path, t.next);
        WalkPathGrows(steps, t.entries, t.next, path', fuel - 1, show, llm);
        var w := Walk(steps, t.entries, t.next, path', fuel - 1, show, llm);
        assert w.path[..|path|] == w.path[..|path'|][..|path|];
      }
    }
  }

  /** Every id the walk adds to the path is non-empty. */
  lemma {:induction false} WalkPathTruthy(steps: map<string, StepConfig>, entries: map<string, Json>, current: string,
                                          path: seq<string>, fuel: nat, show: Show, llm: Llm)
    ensures var w := Walk(steps, entries, current, path, fuel, show, llm);
      forall i :: |path| <= i < |w.path| ==> w.path[i] != ""
    decreases fuel
  {
    if current != "" && fuel > 0 {
      var t := Advance(steps, entries, current, show, llm);
      if t.Continue? {
        var path' := Taken(path, t.next);
        WalkPathTruthy(steps, t.entries, t.next, path', fuel - 1, show, llm);
        WalkPathGrows(steps, t.entries, t.next, path', fuel - 1, show, llm);
        if t.next != "" {
          var w := Walk(steps, t.entries, t.next, path', fuel - 1, show, llm);
          assert w.path[|path|] == w.path[..|path'|][|path|] == t.next;
        }
      }
    }
  }

  /** Every id of the path from the current one to the last but one was
      a known step: only the last id can be unknown. */
  lemma {:induction false} WalkPathKnown(steps: map<string, StepConfig>, entries: map<string, Json>, current: string,
                                         path: seq<string>, fuel: nat, show: Show, llm: Llm)
    requires |path| >= 1 && (current == "" || path[|path| - 1] == current)
    ensures var w := Walk(steps, entries, current, path, fuel, show, llm);
      forall i :: |path| - 1 <= i < |w.path| - 1 ==> w.path[i] in steps
    decreases fuel
  {
    if current != "" && fuel > 0 {
      var t := Advance(steps, entries, current, show, llm);
      if t.Continue? {
        var path' := Taken(path, t.next);
        WalkPathKnown(steps, t.entries, t.next, path', fuel - 1, show, llm);
        WalkPathGrows(steps, t.entries, t.next, path', fuel - 1, show, llm);
      }
    }
  }

  /** A turn that goes on continues the walk from the next id. */
  lemma {:induction false} WalkContinues(steps: map<string, StepConfig>, entries: map<string, Json>, current: string,
                      path: seq<string>, fuel: nat, show: Show, llm: Llm)
    requires current != "" && fuel > 0 && Advance(steps, entries, current, show, llm).Continue?
    ensures var t := Advance(steps, entries, current, show, llm);
      Walk(steps, entries, current, path, fuel, show, llm) == Walk(steps, t.entries, t.next, Taken(path, t.next), fuel - 1, show, llm)
  {
  }

  /** The first step decides: an empty id ends the walk at once, an
      unknown id raises StepNotFound, and a step with no next step ends the
      walk after storing its output, with nothing added to the path. */
  lemma {:induction false} WalkFirstStep(steps: map<string, StepConfig>, entries: map<string, Json>, current: string,
                      path: seq<string>, fuel: nat, show: Show, llm: Llm)
    requires fuel > 0
    ensures var w := Walk(steps, entries, current, path, fuel, show, llm);
      && (current == "" ==> w == Walked(entries, path, None))
      && (current != "" && current !in steps ==> w == Walked(entries, path, Some(StepNotFound(current))))
      && (current != "" && current in steps && steps[current].nextStep.End? ==>
            var o := StepOutcome(steps, current, entries, show, llm);
            w == if o.Ok? then Walked(o.value, path, None) else Walked(entries, path, Some(o.error)))
  {
  }

  /** A results dictionary, shared with the caller who passed it in. */
  class Results {
    var entries: map<string, Json>

    constructor(entries: map<string, Json>)
      ensures this.entries == entries
    {
      this.entries := entries;
    }
  }

  /** The path as the list stored under "path_taken". */
  function PathJson(path: seq<string>): (j: Json)
    ensures j.JList? && |j.items| == |path| && forall i :: 0 <= i < |path| ==> j.items[i] == JStr(path[i])
  {
    JList(seq(|path|, i requires 0 <= i < |path| => JStr(path[i])))
  }

  /** The results `execute` starts from: the context when it is a
      non-empty dictionary (an empty one is falsy), else a new one, with
      the initial input stored. */
  function StartEntries(context: Option<map<string, Json>>, initialInput: string): (m: map<string, Json>)
    ensures InitialInputKey in m && m[InitialInputKey] == JStr(initialInput)
    ensures context.Some? ==> forall k :: k in context.value && k != InitialInputKey ==> k in m && m[k] == context.value[k]
    ensures context.None? || context.value == map[] ==> m == map[InitialInputKey := JStr(initialInput)]
  {
    (if context.Some? && context.value != map[] then context.value else map[])[InitialInputKey := JStr(initialInput)]
  }

  /** What `execute` leaves in the results: the walk's results, with the
      path stored when the walk ended without raising. */
  function Finished(w: Walked): map<string, Json>
  {
    if w.error.None? then w.entries[PathTakenKey := PathJson(w.path)] else w.entries
  }

  class Chain {
    var steps: map<string, StepConfig>
    var results: Results

    constructor()
      ensures steps == map[] && fresh(results) && results.entries == map[]
    {
      steps := map[];
      results := new Results(map[]);
    }

    /** `add_step`: a later step with the same id replaces the earlier. */
    method AddStep(id: string, config: StepConfig)
      modifies this
      ensures steps == old(steps)[id := config] && results == old(results)
    {
      steps := steps[id := config];
    }

    /** `_execute_step(step_id)`: on success the results are the step's
        outcome; on failure they are unchanged. */
    method ExecuteStep(id: string, show: Show, llm: Llm) returns (err: Option<BranchError>)
      modifies results
      ensures var o := StepOutcome(steps, id, old(results.entries), show, llm);
        && (err.None? <==> o.Ok?)
        && (o.Ok? ==> results.entries == o.value)
        && (o.Err? ==> err == Some(o.error) && results.entries == old(results.entries))
    {
      if id !in steps {
        return Some(StepNotFound(id));
      }
      var step := steps[id];
      var response := StepResponse(step, results.entries, show, llm);
      if response.Err? {
        return Some(response.error);
      }
      var output := response.value;
      var key := step.outputKey;
      results.entries := results.entries[key := JStr(output)];
      if step.processor.Some? {
        var processed := step.processor.value(output);
        results.entries := results.entries[key + ProcessedSuffix := processed];
      }
      return None;
    }

    /** `execute(initial_input, start_step_id, context)`, walking at most
        maxSteps steps. A non-empty context is itself the results object:
        it is updated in place and handed back. */
    method Execute(initialInput: string, startId: string, context: Results?, show: Show, llm: Llm, maxSteps: nat)
      returns (r: Results, err: Option<BranchError>)
      modifies this, context
      ensures results == r && steps == old(steps)
      ensures context != null && old(context.entries) != map[] ==> r == context
      ensures context == null || old(context.entries) == map[] ==> fresh(r)
      ensures var start := StartEntries(if context != null then Some(old(context.entries)) else None, initialInput);
        var w := Walk(steps, start, startId, [startId], maxSteps, show, llm);
        err == w.error && r.entries == Finished(w)
    {
      ghost var start := StartEntries(if context != null then Some(context.entries) else None, initialInput);
      if context != null && context.entries != map[] {
        r := context;
      } else {
        r := new Results(map[]);
      }
      results := r;
      r.entries := r.entries[InitialInputKey := JStr(initialInput)];
      ghost var w := Walk(steps, start, startId, [startId], maxSteps, show, llm);
      var current := startId;
      var path := [current];
      var fuel := maxSteps;
      while current != ""
        invariant results == r && steps == old(steps)
        invariant Walk(steps, r.entries, current, path, fuel, show, llm) == w
        decreases fuel
      {
        if fuel == 0 {
          return r, Some(StepBudgetExhausted);
        }
        ghost var before := r.entries;
        var e := ExecuteStep(current, show, llm);
        if e.Some? {
          assert Advance(steps, before, current, show, llm) == Stop(before, e);
          return r, e;
        }
        match steps[current].nextStep {
          case End =>
            assert Advance(steps, before, current, show, llm) == Stop(r.entries, None);
            r.entries := r.entries[PathTakenKey := PathJson(path)];
            return r, None;
          case Invalid =>
            assert Advance(steps, before, current, show, llm) == Stop(r.entries, Some(InvalidNextStep(current)));
            return r, Some(InvalidNextStep(current));
          case Static(next) =>
            assert Advance(steps, before, current, show, llm) == Continue(r.entries, next);
            current := next;
          case Dynamic(choose) =>
            var chosen := choose(r.entries);
            if chosen.Err? {
              assert Advance(steps, before, current, show, llm) == Stop(r.entries, Some(NextStepFailed(chosen.error)));
              return r, Some(NextStepFailed(chosen.error));
            }
            assert Advance(steps, before, current, show, llm) == Continue(r.entries, chosen.value);
            current := chosen.value;
        }
        if current != "" {
          path := path + [current];
        }
        fuel := fuel - 1;
      }
      r.entries := r.entries[PathTakenKey := PathJson(path)];
      return r, None;
    }
  }

  // ---------------------------------------------------------------------
  // The support-ticket chain
  // ---------------------------------------------------------------------

  /** `results.get("category_processed", {}).get("category", "").lower()`:
      a processed value that is not a dictionary, or a category that is not
      a string, raises AttributeError. */
  function Category(results: map<string, Json>): Result<string, string>
  {
    var processed := if "category_processed" in results then results["category_processed"] else JObj(map[]);
    if !processed.JObj? then Err("AttributeError")
    else
      var category := if "category" in processed.fields then processed.fields["category"] else JStr("");
      if category.JStr? then Ok(Lower(category.s)) else Err("AttributeError")
  }

  const TechnicalSupport := "technical_support"
  const BillingSupport := "billing_support"
  const FeatureRequest := "feature_request"
  const GeneralInquiry := "general_inquiry"

  /** The branch a lowercased category leads to. */
  function RouteCategory(category: string): (id: string)
    ensures id in {TechnicalSupport, BillingSupport, FeatureRequest, GeneralInquiry}
  {
    if Contains(category, "technical") || Contains(category, "bug") then TechnicalSupport
    else if Contains(category, "billing") || Contains(category, "payment") then BillingSupport
    else if Contains(category, "feature") || Contains(category, "request") then FeatureRequest
    else GeneralInquiry
  }

  /** `route_by_category`. */
  function RouteByCategory(results: map<string, Json>): Result<string, string>
  {
    match Category(results)
    case Err(m) => Err(m)
    case Ok(c) => Ok(RouteCategory(c))
  }

  /** The checks go in order: a category naming both a bug and a payment
      is technical; billing beats feature; anything else is general. */
  lemma {:induction false} RouteOrder(category: string)
    ensures (Contains(category, "technical") || Contains(category, "bug")) <==> RouteCategory(category) == TechnicalSupport
    ensures RouteCategory(category) == BillingSupport <==>
      !Contains(category, "technical") && !Contains(category, "bug") && (Contains(category, "billing") || Contains(category, "payment"))
    ensures RouteCategory(category) == GeneralInquiry <==>
      !Contains(category, "technical") && !Contains(category, "bug") && !Contains(category, "billing")
      && !Contains(category, "payment") && !Contains(category, "feature") && !Contains(category, "request")
  {
  }

  /** A category read from the processed output is matched lowercased. */
  lemma {:induction false} RouteIgnoresCase(results: map<string, Json>, s: string)
    requires "category_processed" in results && results["category_processed"].JObj?
    requires "category" in results["category_processed"].fields
    requires results["category_processed"].fields["category"] == JStr(s)
    ensures RouteByCategory(results) == Ok(RouteCategory(Lower(s)))
  {
  }

  /** The shape of `run_support_ticket_chain`'s steps: categorize routes
      through route_by_category, each branch goes on to prioritize, and
      prioritize ends the chain. */
  ghost predicate SupportShape(steps: map<string, StepConfig>)
  {
    && "categorize" in steps && steps["categorize"].nextStep.Dynamic?
    && (forall results :: steps["categorize"].nextStep.choose(results) == RouteByCategory(results))
    && (forall id :: id in {TechnicalSupport, BillingSupport, FeatureRequest, GeneralInquiry} ==>
          id in steps && steps[id].nextStep.Static? && steps[id].nextStep.id == "prioritize")
    && "prioritize" in steps && steps["prioritize"].nextStep.End?
  }

  /** A support ticket that runs through without raising takes exactly
      three steps: categorize, one of the four branches, prioritize. */
  lemma {:induction false} SupportPath(steps: map<string, StepConfig>, entries: map<string, Json>, fuel: nat, show: Show, llm: Llm)
    requires SupportShape(steps) && fuel >= 3
    ensures var w := Walk(steps, entries, "categorize", ["categorize"], fuel, show, llm);
      w.error.None? ==>
        && |w.path| == 3 && w.path[0] == "categorize" && w.path[2] == "prioritize"
        && w.path[1] in {TechnicalSupport, BillingSupport, FeatureRequest, GeneralInquiry}
  {
    var t1 := Advance(steps, entries, "categorize", show, llm);
    if t1.Continue? {
      var branch := t1.next;
      assert RouteByCategory(t1.entries) == Ok(branch);
      assert branch in {TechnicalSupport, BillingSupport, FeatureRequest, GeneralInquiry};
      var p2 := ["categorize", branch];
      assert Taken(["categorize"], branch) == p2;
      WalkContinues(steps, entries, "categorize", ["categorize"], fuel, show, llm);
      var t2 := Advance(steps, t1.entries, branch, show, llm);
      if t2.Continue? {
        assert t2.next == "prioritize";
        WalkContinues(steps, t1.entries, branch, p2, fuel - 1, show, llm);
        var t3 := Advance(steps, t2.entries, "prioritize", show, llm);
        assert t3.Stop?;
      }
    }
  }
}
