/** Compiling persona choices and an adapter strategy into one stage graph
    (src/mootloop/pipeline.py, src/mootloop/models/pipeline.py). */
module Pipeline {
  import opened Wrappers
  import opened Layout

  datatype Stage =
    | AssociateDraft
    | PartnerLoop
    | OcAttack
    | BolsterPass
    | JudgePanel
    | NarrativeAssessment
    | RestructurePass
    | JuryPanel
    | RubricGate
    | Assemble

  datatype Strategy = ThinFull | DeepCore | AdversarialFirst

  datatype Persona = Associate | Partner | OcAssociate | OcPartner | JudgePersona | RubricJudge

  /** Per-request loop caps; a partner loop has at least one round. */
  datatype Caps = Caps(associatePartner: nat, oc: nat, bolster: nat, restructure: nat) {
    predicate Valid() { associatePartner >= 1 }
  }

  datatype PanelSizes = PanelSizes(judges: nat, jury: bool, jurors: nat, rubricJudges: nat) {
    predicate Valid() { judges >= 1 && rubricJudges >= 1 && (jury ==> jurors >= 1) }
  }

  datatype StrategyConfig = StrategyConfig(stages: seq<Stage>, associatePartnerCap: nat)

  /** A task adapter; `strategies` is empty or defines all three strategies. */
  datatype Adapter = Adapter(
    document: bool,
    stages: seq<Stage>,
    caps: Caps,
    panels: PanelSizes,
    gates: seq<string>,
    strategies: map<Strategy, StrategyConfig>)
  {
    predicate Valid() {
      && caps.Valid() && panels.Valid()
      && (strategies != map[] ==> forall s: Strategy :: s in strategies)
    }
  }

  /** The values a resolved run configuration puts over the adapter's. */
  datatype Overrides = Overrides(caps: Caps, panels: PanelSizes, gates: seq<string>) {
    predicate Valid() { caps.Valid() && panels.Valid() }
  }

  datatype CompileError =
    | DocumentAssessment
    | NoDraftingOwner
    | NoStrategies
    | DeepCoreNeedsBoth
    | AdversarialNeedsOpponent
    | GraphError
    | UnownedWork
    | OwnershipMismatch

  /** The committed pipeline. */
  datatype Graph = Graph(
    strategy: Strategy,
    stages: seq<Stage>,
    caps: Caps,
    panels: PanelSizes,
    gates: seq<string>,
    document: bool,
    drafting: Persona,
    opponents: seq<Persona>,
    active: set<Persona>,
    maxTurns: nat)
  {
    function SlotSizes(): Sizes {
      Sizes.Sizes(caps.associatePartner, caps.oc, caps.bolster, panels.judges, panels.rubricJudges,
                  caps.restructure, if panels.jury then panels.jurors else 0)
    }

    predicate RubricEnabled() {
      RubricJudge in active
    }

    function MinimumRounds(): nat {
      if strategy == DeepCore then 3 else 1
    }
  }

  predicate NoDuplicates(stages: seq<Stage>) {
    forall i, j :: 0 <= i < j < |stages| ==> stages[i] != stages[j]
  }

  /** What the graph check accepts: distinct stages ending in `assemble`. Order is otherwise free. */
  predicate GraphOk(stages: seq<Stage>) {
    NoDuplicates(stages) && stages != [] && stages[|stages| - 1] == Assemble
  }

  predicate Judging(s: Stage) {
    s == JudgePanel || s == NarrativeAssessment
  }

  /** Maximum provider calls per request. */
  function TurnCeiling(stages: seq<Stage>, caps: Caps, panels: PanelSizes, rubricEnabled: bool): nat {
    (if PartnerLoop in stages then 2 * caps.associatePartner + (if rubricEnabled then caps.associatePartner else 0)
     else 1)
    + (if OcAttack in stages then caps.oc else 0)
    + (if BolsterPass in stages then caps.bolster else 0)
    + (if JudgePanel in stages || NarrativeAssessment in stages then panels.judges else 0)
    + (if RestructurePass in stages then caps.restructure else 0)
    + (if JuryPanel in stages && panels.jury then panels.jurors else 0)
    + (if RubricGate in stages then panels.rubricJudges else 0)
  }

  function Without(stages: seq<Stage>, removed: set<Stage>): (kept: seq<Stage>)
    ensures forall s :: s in kept <==> s in stages && s !in removed
    ensures |kept| <= |stages|
  {
    if stages == [] then []
    else
      var rest := Without(stages[..|stages| - 1], removed);
      if stages[|stages| - 1] in removed then rest else rest + [stages[|stages| - 1]]
  }

  lemma {:induction false} WithoutKeepsGraph(stages: seq<Stage>, removed: set<Stage>)
    ensures NoDuplicates(stages) ==> NoDuplicates(Without(stages, removed))
    ensures GraphOk(stages) && Assemble !in removed ==> GraphOk(Without(stages, removed))
  {
    if stages != [] {
      var front := stages[..|stages| - 1];
      WithoutKeepsGraph(front, removed);
      var rest := Without(front, removed);
      if NoDuplicates(stages) {
        assert NoDuplicates(front);
        forall i | 0 <= i < |rest|
          ensures rest[i] != stages[|stages| - 1]
        {
          assert rest[i] in front;
        }
      }
    }
  }

  function Max(a: nat, b: nat): nat {
    if a >= b then a else b
  }

  function Required(a: Adapter, active: set<Persona>, opponents: seq<Persona>): set<Stage> {
    {AssociateDraft}
    + (if Partner in active then {PartnerLoop} else {})
    + (if opponents != [] then {OcAttack, BolsterPass} else {})
    + (if JudgePersona in active then (if a.document then {NarrativeAssessment} else {JudgePanel, RestructurePass})
       else {})
    + (if RubricJudge in active then {RubricGate} else {})
  }

  function Opponents(active: set<Persona>): seq<Persona> {
    (if OcAssociate in active then [OcAssociate] else []) + (if OcPartner in active then [OcPartner] else [])
  }

  predicate AssessesDiscovery(stages: seq<Stage>) {
    JudgePanel in stages || RestructurePass in stages || JuryPanel in stages
  }

  function IndexOf(stages: seq<Stage>, s: Stage): (i: nat)
    requires s in stages
    ensures i < |stages| && stages[i] == s && s !in stages[..i]
  {
    if stages[0] == s then 0 else
      assert s in stages[1..];
      1 + IndexOf(stages[1..], s)
  }

  /** Stages a deep-core run may only reach after partner review. */
  const External: set<Stage> := {OcAttack, JudgePanel, NarrativeAssessment, RubricGate}

  /** The ownership checks run on every committed pipeline. */
  predicate OwnershipOk(g: Graph) {
    && GraphOk(g.stages)
    && AssociateDraft in g.stages
    && (Partner in g.active ==> PartnerLoop in g.stages)
    && (g.opponents != [] <==> OcAttack in g.stages)
    && (JudgePersona in g.active <==> (JudgePanel in g.stages || NarrativeAssessment in g.stages))
    && (g.RubricEnabled() <==> RubricGate in g.stages)
    && (RubricGate in g.stages <==> "rubric" in g.gates)
    && (g.strategy == DeepCore ==>
          && Associate in g.active && Partner in g.active
          && g.caps.associatePartner >= 3
          && PartnerLoop in g.stages
          && forall s :: s in External && s in g.stages ==> IndexOf(g.stages, PartnerLoop) <= IndexOf(g.stages, s))
    && (g.strategy == AdversarialFirst ==>
          && g.opponents != []
          && (PartnerLoop in g.stages && OcAttack in g.stages ==>
                IndexOf(g.stages, OcAttack) <= IndexOf(g.stages, PartnerLoop)))
  }

  function RemoveGate(gates: seq<string>, name: string): seq<string> {
    if gates == [] then []
    else (if gates[0] == name then [] else [gates[0]]) + RemoveGate(gates[1..], name)
  }

  /** The stages only bypassed personas own. */
  function Removed(active: set<Persona>, opponents: seq<Persona>): set<Stage> {
    (if Partner in active then {} else {PartnerLoop})
    + (if opponents != [] then {} else {OcAttack, BolsterPass})
    + (if JudgePersona in active then {} else {JudgePanel, NarrativeAssessment, RestructurePass})
    + (if RubricJudge in active then {} else {RubricGate})
  }

  function EffectiveStages(selected: seq<Stage>, active: set<Persona>, opponents: seq<Persona>): seq<Stage> {
    Without(selected, Removed(active, opponents))
  }

  /** The checks made before a graph is built. */
  function Refusal(a: Adapter, active: set<Persona>, strategy: Strategy): Option<CompileError>
    requires a.Valid()
    ensures Refusal(a, active, strategy).None? ==> strategy in a.strategies
  {
    var opponents := Opponents(active);
    if a.document && (a.panels.jury || AssessesDiscovery(a.stages)
                      || exists s :: s in a.strategies && AssessesDiscovery(a.strategies[s].stages)) then
      Some(DocumentAssessment)
    else if Associate !in active && Partner !in active then Some(NoDraftingOwner)
    else if a.strategies == map[] then Some(NoStrategies)
    else if strategy == DeepCore && !(Associate in active && Partner in active) then Some(DeepCoreNeedsBoth)
    else if strategy == AdversarialFirst && opponents == [] then Some(AdversarialNeedsOpponent)
    else if !GraphOk(a.strategies[strategy].stages) then Some(GraphError)
    else if exists s :: s in Required(a, active, opponents) && s !in a.strategies[strategy].stages then
      Some(UnownedWork)
    else None
  }

  /** The adapter's configuration edited down to the active personas. */
  function Effective(a: Adapter, active: set<Persona>, strategy: Strategy, overrides: Option<Overrides>): Graph
    requires strategy in a.strategies
  {
    var selected := a.strategies[strategy];
    var opponents := Opponents(active);
    var caps0 := if overrides.Some? then overrides.value.caps else a.caps;
    var panels := if overrides.Some? then overrides.value.panels else a.panels;
    var gates0 := if overrides.Some? then overrides.value.gates else a.gates;
    var caps := Caps(
      Max(caps0.associatePartner, selected.associatePartnerCap),
      if opponents != [] then Max(caps0.oc, |opponents|) else 0,
      if opponents != [] then caps0.bolster else 0,
      if JudgePersona in active then caps0.restructure else 0);
    var stages := EffectiveStages(selected.stages, active, opponents);
    var gates := if RubricJudge in active then gates0 else RemoveGate(gates0, "rubric");
    Graph(strategy, stages, caps, panels, gates, a.document,
          if Associate in active then Associate else Partner, opponents, active,
          TurnCeiling(stages, caps, panels, RubricJudge in active))
  }

  function Compile(a: Adapter, active: set<Persona>, strategy: Strategy, overrides: Option<Overrides>)
    : Result<Graph, CompileError>
    requires a.Valid() && (overrides.Some? ==> overrides.value.Valid())
  {
    var refusal := Refusal(a, active, strategy);
    if refusal.Some? then Failure(refusal.value)
    else
      var g := Effective(a, active, strategy, overrides);
      if OwnershipOk(g) then Success(g) else Failure(OwnershipMismatch)
  }

  /** What every compiled graph has. It says nothing of the order of `associate_draft`,
      `judge_panel` and `restructure`: see `Stages.Ordered`. */
  ghost predicate Compiled(g: Graph) {
    && OwnershipOk(g)
    && g.caps.Valid() && g.panels.Valid()
    && (PartnerLoop in g.stages <==> Partner in g.active)
    && (g.opponents != [] ==> OcAttack in g.stages) && (BolsterPass in g.stages <==> g.opponents != [])
    && (JudgePersona in g.active ==>
          if g.document then NarrativeAssessment in g.stages
          else JudgePanel in g.stages && RestructurePass in g.stages)
    && (OcAttack in g.stages ==> g.caps.oc >= |g.opponents| >= 1)
    && (RestructurePass in g.stages ==> JudgePanel in g.stages || NarrativeAssessment in g.stages)
    && (g.document ==> !AssessesDiscovery(g.stages))
    && (g.drafting == Associate || g.drafting == Partner) && g.drafting in g.active
    && g.maxTurns == TurnCeiling(g.stages, g.caps, g.panels, g.RubricEnabled())
  }

  /** What the active personas require survives the removal of what the bypassed ones owned. */
  lemma RequiredStay(a: Adapter, active: set<Persona>, strategy: Strategy)
    requires a.Valid() && Refusal(a, active, strategy).None?
    ensures var opponents := Opponents(active);
      forall s :: s in Required(a, active, opponents) ==>
        s in EffectiveStages(a.strategies[strategy].stages, active, opponents)
  {
    var opponents := Opponents(active);
    RequiredPresent(a, active, strategy);
    RequiredNotRemoved(a, active);
    hide Refusal, Required, Removed, Opponents;
  }

  lemma RequiredPresent(a: Adapter, active: set<Persona>, strategy: Strategy)
    requires a.Valid() && Refusal(a, active, strategy).None?
    ensures forall s :: s in Required(a, active, Opponents(active)) ==> s in a.strategies[strategy].stages
  {
    hide Required, Opponents, GraphOk, AssessesDiscovery;
  }

  lemma RequiredNotRemoved(a: Adapter, active: set<Persona>)
    ensures var opponents := Opponents(active);
      forall s :: s in Required(a, active, opponents) ==> s !in Removed(active, opponents)
  {
    hide Opponents;
  }

  /** Every graph the compiler returns gives each active persona its stages and no bypassed persona
      any, keeps the stage list well formed through every removal, and keeps one draft owner. */
  lemma CompileSound(a: Adapter, active: set<Persona>, strategy: Strategy, overrides: Option<Overrides>)
    requires a.Valid() && (overrides.Some? ==> overrides.value.Valid())
    requires Compile(a, active, strategy, overrides).Success?
    ensures Compiled(Compile(a, active, strategy, overrides).value)
  {
    RequiredStay(a, active, strategy);
    if a.document {
      assert !AssessesDiscovery(a.strategies[strategy].stages);
    }
    hide Refusal, TurnCeiling, RemoveGate, IndexOf, NoDuplicates;
  }
}
