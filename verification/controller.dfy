/**
 The form-state controller of the GrowthSphere screen: five pieces of state
 (the Program draft, the `creating` flag, the `createdProgram` record, the
 Strategy draft and the `strategies` list) and the transitions that user
 actions and network responses cause. A transition also lists the requests
 it issues. Responses arrive later as actions of their own, except that a
 Strategy create is taken as one step together with its response.
 */
module GrowthSphere {
  import opened Optional
  import opened OrderedSet
  import ProgramRecord
  import StrategyRecord

  type Program = ProgramRecord.Program
  type Strategy = StrategyRecord.Strategy
  type ProgramId = StrategyRecord.ProgramId

  /** The parsed body of a successful `POST /api/programs`: the stored record and the `id` it was given. */
  datatype CreatedProgram = CreatedProgram(id: ProgramId, record: Program)

  datatype State = State(
    program: Program,
    creating: bool,
    createdProgram: Option<CreatedProgram>,
    strategy: Strategy,
    strategies: seq<Strategy>)

  /** A request sent to the backend; the body is the snapshot taken when it is sent. */
  datatype Request =
    | PostProgram(program: Program)
    | PostStrategy(strategy: Strategy)
    | ListStrategies(programId: string)

  datatype Action =
    | EditProgram(programEdit: ProgramRecord.ProgramEdit)
    | EditStrategy(strategyEdit: StrategyRecord.StrategyEdit)
      /** A click on "Save Program Profile". */
    | SaveProgram
      /** `POST /api/programs` answered and its body parsed. */
    | ProgramSaved(data: CreatedProgram)
      /** `POST /api/programs` or its body parsing threw. */
    | ProgramSaveFailed
      /** A click on "Create Strategy" together with whether its POST and body parsing succeeded. */
    | CreateStrategy(created: bool)
      /** `GET /api/strategies` answered; `items` is absent when the body has none. */
    | StrategiesLoaded(items: Option<seq<Strategy>>)
    | StrategiesLoadFailed

  datatype Transition = Transition(state: State, requests: seq<Request>)

  const Initial: State := State(ProgramRecord.Initial, false, None, StrategyRecord.Initial, [])

  /** The Save Program button is enabled. */
  predicate SaveEnabled(s: State) {
    !s.creating
  }

  /** The Create Strategy button is enabled. */
  predicate CreateStrategyEnabled(s: State) {
    StrategyRecord.Truthy(s.strategy.programId)
  }

  /**
   The input that delivers the edit is on screen. Only the "Specify
   organization type" input is conditional: it is rendered only while the
   organization type is "Other".
   */
  predicate ProgramEditVisible(s: State, e: ProgramRecord.ProgramEdit) {
    e.SetOrganizationTypeOther? ==> s.program.organizationType == ProgramRecord.OtherType
  }

  /** The request `loadStrategies` sends from state `s`, if any. */
  function LoadStrategies(s: State): seq<Request> {
    if StrategyRecord.Truthy(s.strategy.programId) then [ListStrategies(s.strategy.programId.value)] else []
  }

  /** `data.items || []`: the listed items, or no items when the body has none. */
  function ItemsOrEmpty(items: Option<seq<Strategy>>): seq<Strategy> {
    match items
    case Some(listed) => listed
    case None => []
  }

  /** What a list response does: `setStrategies(data.items || [])`. */
  function ReceiveStrategies(s: State, items: Option<seq<Strategy>>): State {
    s.(strategies := ItemsOrEmpty(items))
  }

  /** `loadStrategies` as one round trip with the response `items`. */
  function LoadRoundTrip(s: State, items: Option<seq<Strategy>>): (t: Transition)
    ensures !StrategyRecord.Truthy(s.strategy.programId) ==> t.requests == [] && t.state == s
    ensures StrategyRecord.Truthy(s.strategy.programId) ==>
              && t.requests == [ListStrategies(s.strategy.programId.value)]
              && (items.Some? ==> t.state.strategies == items.value)
              && (items.None? ==> t.state.strategies == [])
              && t.state.(strategies := s.strategies) == s
  {
    var sent := LoadStrategies(s);
    Transition(if sent == [] then s else ReceiveStrategies(s, items), sent)
  }

  /** The event handlers, before React re-renders. */
  function Handle(s: State, a: Action): Transition {
    match a
    case EditProgram(e) =>
      if !ProgramEditVisible(s, e) then Transition(s, [])
      else Transition(s.(program := ProgramRecord.Apply(s.program, e)), [])
    case EditStrategy(e) =>
      Transition(s.(strategy := StrategyRecord.Apply(s.strategy, e)), [])
    case SaveProgram =>
      if !SaveEnabled(s) then Transition(s, [])
      else Transition(s.(creating := true), [PostProgram(s.program)])
    case ProgramSaved(data) =>
      Transition(s.(createdProgram := Some(data), strategy := StrategyRecord.Bind(s.strategy, data.id), creating := false), [])
    case ProgramSaveFailed =>
      Transition(s.(creating := false), [])
    case CreateStrategy(created) =>
      if !CreateStrategyEnabled(s) then Transition(s, [])
      else Transition(s, [PostStrategy(s.strategy)] + (if created then LoadStrategies(s) else []))
    case StrategiesLoaded(items) =>
      Transition(ReceiveStrategies(s, items), [])
    case StrategiesLoadFailed =>
      Transition(s, [])
  }

  /** The `program_id` effect: after a render in which `program_id` changed, `loadStrategies` runs on the new state. */
  function Settle(before: State, t: Transition): Transition {
    if t.state.strategy.programId != before.strategy.programId
    then Transition(t.state, t.requests + LoadStrategies(t.state))
    else t
  }

  /** The state-shape facts every reachable state keeps. */
  predicate Inv(s: State) {
    && ProgramRecord.EligibilityValid(s.program)
    && NoDup(s.strategy.sectors)
    && s.strategy.overrides == map[]
  }

  /** Requests this model never lets out: a list query or a Strategy POST without a Program to hang it on. */
  predicate Safe(requests: seq<Request>) {
    && (forall q :: q in requests && q.ListStrategies? ==> q.programId != "")
    && (forall q :: q in requests && q.PostStrategy? ==> StrategyRecord.Truthy(q.strategy.programId))
  }

  /** One action followed by the effect it may trigger. */
  function Step(s: State, a: Action): (t: Transition)
    ensures Safe(t.requests)
  {
    Settle(s, Handle(s, a))
  }

  /** No step breaks the invariant. */
  lemma StepKeepsInv(s: State, a: Action)
    requires Inv(s)
    ensures Inv(Step(s, a).state)
  {
    if a.EditProgram? {
      ProgramRecord.ApplyKeepsEligibilityValid(s.program, a.programEdit);
    }
  }

  /** The first render: the effect runs once with the initial `program_id`. */
  function Mount(): (t: Transition)
    ensures t.requests == [] && Inv(t.state)
  {
    ProgramRecord.InitialAllEligible();
    Transition(Initial, LoadStrategies(Initial))
  }

  /** A run of actions: the last state and every request issued on the way, in order. */
  function Run(s: State, actions: seq<Action>): (t: Transition)
    ensures Safe(t.requests)
    decreases |actions|
  {
    if |actions| == 0 then Transition(s, [])
    else
      var first := Step(s, actions[0]);
      var rest := Run(first.state, actions[1..]);
      Transition(rest.state, first.requests + rest.requests)
  }

  /** No run of actions breaks the invariant. */
  lemma {:induction false} RunKeepsInv(s: State, actions: seq<Action>)
    requires Inv(s)
    ensures Inv(Run(s, actions).state)
    decreases |actions|
  {
    if |actions| > 0 {
      StepKeepsInv(s, actions[0]);
      RunKeepsInv(Step(s, actions[0]).state, actions[1..]);
    }
  }

  /** Saving is refused while a save is in flight, and otherwise sends the current draft and raises `creating`. */
  lemma SaveGuardedByCreating(s: State)
    ensures s.creating ==> Step(s, SaveProgram) == Transition(s, [])
    ensures !s.creating ==> Step(s, SaveProgram) == Transition(s.(creating := true), [PostProgram(s.program)])
  {
  }

  /** Either response to the Program POST lowers `creating`. */
  lemma ResponseClearsCreating(s: State, data: CreatedProgram)
    ensures !Step(s, ProgramSaved(data)).state.creating
    ensures !Step(s, ProgramSaveFailed).state.creating
  {
  }

  /**
   A successful save from an idle form: `creating` is up while the POST is
   out and down afterwards, the response is kept as `createdProgram`, its
   `id` becomes the Strategy's `program_id`, nothing else in either draft
   moves, and the list is reloaded exactly when the `id` is a new truthy
   value.
   */
  lemma SubmitSucceeds(s: State, data: CreatedProgram)
    requires !s.creating
    ensures var sent := Step(s, SaveProgram);
            sent.state.creating && sent.requests == [PostProgram(s.program)]
    ensures var done := Step(Step(s, SaveProgram).state, ProgramSaved(data));
            && !done.state.creating
            && done.state.createdProgram == Some(data)
            && done.state.strategy.programId == data.id
            && done.state.strategy.metadata == s.strategy.metadata
            && done.state.strategy.sectors == s.strategy.sectors
            && done.state.strategy.overrides == s.strategy.overrides
            && done.state.program == s.program
            && done.state.strategies == s.strategies
            && done.requests == (if data.id != s.strategy.programId && StrategyRecord.Truthy(data.id)
                                 then [ListStrategies(data.id.value)] else [])
  {
  }

  /** A failed save from an idle form leaves the whole state as it was before the click. */
  lemma SubmitFailsCleanly(s: State)
    requires !s.creating
    ensures Step(Step(s, SaveProgram).state, ProgramSaveFailed) == Transition(s, [])
  {
  }

  /**
   Create Strategy posts the draft only when `program_id` is truthy; a
   successful create then reloads the list for that same `program_id`, and the
   draft is not reset.
   */
  lemma CreateStrategyGuardedByProgramId(s: State, created: bool)
    ensures Step(s, CreateStrategy(created)).state == s
    ensures PostStrategy(s.strategy) in Step(s, CreateStrategy(created)).requests
            <==> StrategyRecord.Truthy(s.strategy.programId)
    ensures !StrategyRecord.Truthy(s.strategy.programId) ==> Step(s, CreateStrategy(created)).requests == []
    ensures StrategyRecord.Truthy(s.strategy.programId) && created ==>
              Step(s, CreateStrategy(created)).requests
              == [PostStrategy(s.strategy), ListStrategies(s.strategy.programId.value)]
    ensures StrategyRecord.Truthy(s.strategy.programId) && !created ==>
              Step(s, CreateStrategy(created)).requests == [PostStrategy(s.strategy)]
  {
  }

  /** Whatever action moves `program_id` to a new truthy value also issues the list request for it. */
  lemma ProgramIdChangeReloads(s: State, a: Action)
    ensures var t := Step(s, a);
            t.state.strategy.programId != s.strategy.programId && StrategyRecord.Truthy(t.state.strategy.programId)
            ==> ListStrategies(t.state.strategy.programId.value) in t.requests
  {
  }

  /**
   A Program response whose body has no `id` (the code does not look at the
   HTTP status, so an error body parses as a "success") writes `undefined`
   into `program_id`: a previously bound Strategy is unbound, Create Strategy
   is disabled, and no list request is sent.
   */
  lemma ResponseWithoutIdUnbinds(s: State, record: Program)
    ensures var t := Step(s, ProgramSaved(CreatedProgram(None, record)));
            && t.state.strategy.programId == None
            && !CreateStrategyEnabled(t.state)
            && t.requests == []
  {
  }

  /** Only a successful Program save moves `program_id`, and it moves it to the response's `id`. */
  lemma OnlySaveMovesProgramId(s: State, a: Action)
    ensures var t := Step(s, a);
            t.state.strategy.programId != s.strategy.programId
            ==> a.ProgramSaved? && t.state.strategy.programId == a.data.id
  {
  }

  /** Every list request a step issues is keyed on the `program_id` the step leaves in place. */
  lemma ListRequestsUseCurrentProgramId(s: State, a: Action)
    ensures var t := Step(s, a);
            forall q :: q in t.requests && q.ListStrategies? ==> t.state.strategy.programId == Some(q.programId)
  {
  }

  /** The list changes only when a list response arrives, and then it is replaced wholesale. */
  lemma ListReplacedOnlyByResponse(s: State, a: Action)
    ensures Step(s, a).state.strategies != s.strategies ==> a.StrategiesLoaded?
    ensures a.StrategiesLoaded? && a.items.Some? ==> Step(s, a).state.strategies == a.items.value
    ensures a.StrategiesLoaded? && a.items.None? ==> Step(s, a).state.strategies == []
    ensures a.StrategiesLoaded? ==> Step(s, a).state.(strategies := s.strategies) == s && Step(s, a).requests == []
  {
  }

  /**
   `LoadRoundTrip` is what the state machine does: the request `Step` sends
   for `loadStrategies`, followed by the `Step` for its response.
   */
  lemma LoadRoundTripIsRequestThenResponse(s: State, items: Option<seq<Strategy>>)
    ensures LoadRoundTrip(s, items).requests == LoadStrategies(s)
    ensures StrategyRecord.Truthy(s.strategy.programId) ==>
              LoadRoundTrip(s, items) == Transition(Step(s, StrategiesLoaded(items)).state, LoadStrategies(s))
    ensures !StrategyRecord.Truthy(s.strategy.programId) ==> LoadRoundTrip(s, items) == Transition(s, [])
  {
  }

  /** The free-text organization type changes only through its own input, and only while the type is "Other". */
  lemma OtherTypeTextEditedOnlyWhileOther(s: State, a: Action, t: string)
    ensures Step(s, a).state.program.organizationTypeOther != s.program.organizationTypeOther
            ==> && s.program.organizationType == ProgramRecord.OtherType
                && a.EditProgram? && a.programEdit.SetOrganizationTypeOther?
    ensures Step(s, EditProgram(ProgramRecord.SetOrganizationTypeOther(t))).state.program.organizationTypeOther
            == if s.program.organizationType == ProgramRecord.OtherType then t else s.program.organizationTypeOther
  {
    if a.EditProgram? && ProgramEditVisible(s, a.programEdit) {
      assert ProgramRecord.Get(Step(s, a).state.program, ProgramRecord.OrganizationTypeOther)
             == if ProgramRecord.Target(a.programEdit) == ProgramRecord.OrganizationTypeOther
                then ProgramRecord.Written(a.programEdit)
                else ProgramRecord.Get(s.program, ProgramRecord.OrganizationTypeOther);
    }
  }

  /** Every state reachable from the first render keeps the invariant. */
  lemma ReachableStatesKeepInv(actions: seq<Action>)
    ensures Inv(Run(Mount().state, actions).state)
  {
    RunKeepsInv(Mount().state, actions);
  }
}
