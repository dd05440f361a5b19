/** Per-request planning: what each stage has done and which turns must run next
    (src/mootloop/stages.py). */
module Stages {
  import opened Wrappers
  import opened Layout
  import opened Pipeline
  import Convergence
  import Panels

  /** What a completed turn returned; `approve` and the rulings are whatever the provider said. */
  datatype TurnOutput =
    | DraftOutput(text: string, objections: seq<Panels.Objection>, gateItems: seq<string>, rfa: Option<string>)
    | CritiqueOutput(approve: bool)
    | JudgeOutput(rulings: seq<Panels.Ruling>)
    | NarrativeOutput
    | JurorOutput
    | RubricOutput(scores: seq<nat>)
    | CiteCheckOutput(verdict: string)

  /** No pipeline stage asks for a citation check; its schema is that of turns outside the graph. */
  datatype Schema =
    DraftSchema | CritiqueSchema | JudgeSchema | NarrativeSchema | JurorSchema | RubricSchema | CiteCheckSchema

  predicate Conforms(o: TurnOutput, s: Schema) {
    match s
    case DraftSchema => o.DraftOutput?
    case CritiqueSchema => o.CritiqueOutput?
    case JudgeSchema => o.JudgeOutput?
    case NarrativeSchema => o.NarrativeOutput?
    case JurorSchema => o.JurorOutput?
    case RubricSchema => o.RubricOutput?
    case CiteCheckSchema => o.CiteCheckOutput?
  }

  /** The completed turns of one request, by slot. */
  type View = map<Slot, TurnOutput>

  /** Inputs the planner reads but does not decide: scores, coverage, text similarity, thresholds, and
      whether a draft fits the jurors' prompt limit. */
  datatype Assessment = Assessment(
    score: TurnOutput -> real,
    coverage: TurnOutput -> real,
    similarity: (string, string) -> real,
    floors: Convergence.Floors,
    restructureThreshold: real,
    fits: TurnOutput -> bool)

  datatype PlanError = MissingRecord | MissingDraft | DraftTooLarge | WrongOutput

  /** `Raises` stands for an exception out of the completeness check. */
  datatype Check = Done | Pending | Raises

  datatype Spec = Spec(slot: Slot, stage: Stage, schema: Schema)

  // --- stages with a fixed list of seats --------------------------------------------------

  function Seats(g: Graph, st: Stage): seq<Slot> {
    match st
    case AssociateDraft => [Draft(1)]
    case OcAttack => seq(g.caps.oc, k requires 0 <= k => Oc(k + 1))
    case BolsterPass => seq(g.caps.bolster, k requires 0 <= k => Bolster(k + 1))
    case JudgePanel => seq(g.panels.judges, j requires 0 <= j => Judge(j + 1))
    case NarrativeAssessment => seq(g.panels.judges, j requires 0 <= j => Judge(j + 1))
    case RestructurePass => seq(g.caps.restructure, k requires 0 <= k => Restructure(k + 1))
    case JuryPanel => if g.panels.jury then seq(g.panels.jurors, j requires 0 <= j => Juror(j + 1)) else []
    case RubricGate => seq(g.panels.rubricJudges, m requires 0 <= m => RubricFinal(m + 1))
    case PartnerLoop => []
    case Assemble => []
  }

  // --- draft accessors ------------------------------------------------------------

  /** The last completed slot of a list. */
  function LatestIn(v: View, seats: seq<Slot>): (o: Option<TurnOutput>)
    ensures o.None? <==> forall s :: s in seats ==> s !in v
  {
    if seats == [] then None
    else if seats[|seats| - 1] in v then Some(v[seats[|seats| - 1]])
    else LatestIn(v, seats[..|seats| - 1])
  }

  function DraftSeats(g: Graph): seq<Slot> {
    seq(g.caps.associatePartner, r requires 0 <= r => Draft(r + 1))
  }

  function RedraftSeats(g: Graph): seq<Slot> {
    if g.caps.associatePartner == 0 then [] else DraftSeats(g)[1..]
  }

  function LatestDraft(g: Graph, v: View): Option<TurnOutput> {
    LatestIn(v, DraftSeats(g))
  }

  function LatestBolster(g: Graph, v: View): Option<TurnOutput> {
    LatestIn(v, Seats(g, BolsterPass))
  }

  function Lookup(v: View, s: Slot): Option<TurnOutput> {
    if s in v then Some(v[s]) else None
  }

  /** The draft reviewed in a partner round, including an adversarial-first bolster. */
  function PartnerDraft(g: Graph, v: View, r: nat): Option<TurnOutput> {
    if r == 1 && g.strategy == AdversarialFirst && LatestBolster(g, v).Some? then LatestBolster(g, v)
    else Lookup(v, Draft(r))
  }

  /** The draft the judge panel ruled on. */
  function JudgedDraft(g: Graph, v: View): Option<TurnOutput> {
    var redraft := LatestIn(v, RedraftSeats(g));
    if g.strategy == AdversarialFirst && redraft.Some? then redraft
    else if LatestBolster(g, v).Some? then LatestBolster(g, v)
    else LatestDraft(g, v)
  }

  /** The request's current response. */
  function OperativeDraft(g: Graph, v: View): Option<TurnOutput> {
    var restructured := LatestIn(v, Seats(g, RestructurePass));
    if restructured.Some? then restructured else JudgedDraft(g, v)
  }

  // --- partner loop ------------------------------------------------------------------

  predicate RoundDone(g: Graph, v: View, r: nat) {
    Draft(r) in v && Critique(r) in v && (g.RubricEnabled() ==> RubricLoop(r) in v)
  }

  /** One round's convergence inputs; only read for rounds that are done. */
  function RoundInputs(g: Graph, v: View, q: Assessment, r: nat): Convergence.RoundState {
    var draft := PartnerDraft(g, v, r);
    var rubric := Lookup(v, RubricLoop(r));
    Convergence.RoundState(
      if rubric.Some? then q.score(rubric.value) else 0.0,
      if draft.Some? then q.coverage(draft.value) else 0.0,
      if draft.Some? && draft.value.DraftOutput? then draft.value.text else "")
  }

  function History(g: Graph, v: View, q: Assessment, r: nat): (h: seq<Convergence.RoundState>)
    ensures |h| == r
  {
    if r == 0 then [] else History(g, v, q, r - 1) + [RoundInputs(g, v, q, r)]
  }

  predicate ConvergedAt(g: Graph, v: View, q: Assessment, r: nat) {
    Convergence.GenuinelyConverged(History(g, v, q, r), g.caps.associatePartner, q.floors, q.similarity)
  }

  predicate Approved(v: View, r: nat) {
    Critique(r) in v && v[Critique(r)].CritiqueOutput? && v[Critique(r)].approve
  }

  predicate Settles(g: Graph, v: View, q: Assessment, r: nat) {
    || r == g.caps.associatePartner
    || (r >= g.MinimumRounds() && (Approved(v, r) || (g.RubricEnabled() && ConvergedAt(g, v, q, r))))
  }

  /** The round at which the loop settled, looking from round `r` on. */
  function SettledFrom(g: Graph, v: View, q: Assessment, r: nat): Option<nat>
    decreases g.caps.associatePartner + 1 - r
  {
    if r > g.caps.associatePartner || !RoundDone(g, v, r) then None
    else if Settles(g, v, q, r) then Some(r)
    else SettledFrom(g, v, q, r + 1)
  }

  function PlanRounds(g: Graph, v: View, q: Assessment, r: nat): Result<seq<Slot>, PlanError>
    requires r >= 1
    decreases g.caps.associatePartner + 1 - r
  {
    if r > g.caps.associatePartner then Success([])
    else if Draft(r) !in v then
      // Round 0 has no critique: its number falls outside the request's own critiques.
      if r == 1 || Critique(r - 1) !in v || PartnerDraft(g, v, r - 1).None? then Failure(MissingRecord)
      else Success([Draft(r)])
    else if Critique(r) !in v then Success([Critique(r)])
    else if g.RubricEnabled() && RubricLoop(r) !in v then Success([RubricLoop(r)])
    else if Settles(g, v, q, r) then Success([])
    else PlanRounds(g, v, q, r + 1)
  }

  predicate AllIn(v: View, seats: seq<Slot>) {
    forall s :: s in seats ==> s in v
  }

  function Undone(v: View, seats: seq<Slot>): (u: seq<Slot>)
    ensures forall s :: s in u <==> s in seats && s !in v
  {
    if seats == [] then []
    else
      var rest := Undone(v, seats[..|seats| - 1]);
      var last := seats[|seats| - 1];
      if last in v then rest else rest + [last]
  }

  function FirstOf(seats: seq<Slot>): seq<Slot> {
    if seats == [] then [] else [seats[0]]
  }

  // --- the judge panel's effect -----------------------------------------------------------

  function JudgeRulings(v: View, n: nat): seq<seq<Panels.Ruling>> {
    if n == 0 then []
    else
      JudgeRulings(v, n - 1)
      + if Judge(n) in v && v[Judge(n)].JudgeOutput? then [v[Judge(n)].rulings] else []
  }

  predicate JudgesReadable(g: Graph, v: View) {
    forall j: nat :: 1 <= j <= g.panels.judges && Judge(j) in v ==> v[Judge(j)].JudgeOutput?
  }

  /** The panel's results; `None` when a seat's output is not a judge's. */
  function PanelResults(g: Graph, v: View): Option<seq<Panels.PanelResult>> {
    var draft := JudgedDraft(g, v);
    if g.document || draft.None? then Some([])
    else if !draft.value.DraftOutput? || !JudgesReadable(g, v) then None
    else Some(Panels.FoldPanel(draft.value.objections, JudgeRulings(v, g.panels.judges)))
  }

  predicate IsWeak(r: Panels.PanelResult, q: Assessment) {
    r.total > 0 && r.SurvivalRate() < q.restructureThreshold
  }

  /** `Some(true)` when some objection is weak. */
  function AnyWeak(g: Graph, v: View, q: Assessment): Option<bool> {
    var results := PanelResults(g, v);
    if results.None? then None
    else Some(exists i :: 0 <= i < |results.value| && IsWeak(results.value[i], q))
  }

  // --- completeness and planning -------------------------------------------------------------

  function IsComplete(g: Graph, v: View, q: Assessment, st: Stage): Check {
    match st
    case PartnerLoop => if SettledFrom(g, v, q, 1).Some? then Done else Pending
    case RestructurePass =>
      if !AllIn(v, Seats(g, JudgePanel)) then Pending
      else
        var weak := AnyWeak(g, v, q);
        if weak.None? then Raises
        else if !weak.value || AllIn(v, Seats(g, st)) then Done
        else Pending
    case _ => if AllIn(v, Seats(g, st)) then Done else Pending
  }

  function SchemaFor(st: Stage, s: Slot): Schema {
    if s.Draft? || s.Bolster? || s.Restructure? then DraftSchema
    else if s.Critique? || s.Oc? then CritiqueSchema
    else if s.Judge? then (if st == NarrativeAssessment then NarrativeSchema else JudgeSchema)
    else if s.Juror? then JurorSchema
    else RubricSchema
  }

  function SpecsFor(st: Stage, slots: seq<Slot>): (specs: seq<Spec>)
    ensures |specs| == |slots|
    ensures forall i :: 0 <= i < |slots| ==> specs[i] == Spec(slots[i], st, SchemaFor(st, slots[i]))
  {
    seq(|slots|, i requires 0 <= i < |slots| => Spec(slots[i], st, SchemaFor(st, slots[i])))
  }

  /** The slots a stage schedules next. Panels fan out; the other stages take one slot at a time. */
  function PlanStage(g: Graph, v: View, q: Assessment, st: Stage): Result<seq<Slot>, PlanError> {
    match st
    case AssociateDraft => Success([Draft(1)])
    case PartnerLoop => PlanRounds(g, v, q, 1)
    case OcAttack => Success(FirstOf(Undone(v, Seats(g, st))))
    case BolsterPass => Success(FirstOf(Undone(v, Seats(g, st))))
    case JudgePanel => Success(Undone(v, Seats(g, st)))
    case NarrativeAssessment => Success(Undone(v, Seats(g, st)))
    case RestructurePass =>
      var weak := AnyWeak(g, v, q);
      if weak.None? then Failure(WrongOutput)
      else if !weak.value then Success([])
      else Success(FirstOf(Undone(v, Seats(g, st))))
    case JuryPanel =>
      if !g.panels.jury then Success([])
      else
        var draft := OperativeDraft(g, v);
        if draft.None? then Failure(MissingDraft)
        else if !q.fits(draft.value) then Failure(DraftTooLarge)
        else Success(Undone(v, Seats(g, st)))
    case RubricGate => Success(Undone(v, Seats(g, st)))
    case Assemble => Success([])
  }

  function PlanFrom(g: Graph, v: View, q: Assessment, i: nat): Result<seq<Spec>, PlanError>
    requires i <= |g.stages|
    decreases |g.stages| - i
  {
    if i == |g.stages| then Success([])
    else
      match IsComplete(g, v, q, g.stages[i])
      case Done => PlanFrom(g, v, q, i + 1)
      case Raises => Failure(WrongOutput)
      case Pending =>
        match PlanStage(g, v, q, g.stages[i])
        case Failure(e) => Failure(e)
        case Success(slots) => Success(SpecsFor(g.stages[i], slots))
  }

  /** The next turns that can execute for this request. */
  function PlanRequest(g: Graph, v: View, q: Assessment): Result<seq<Spec>, PlanError> {
    PlanFrom(g, v, q, 0)
  }

  predicate RequestComplete(g: Graph, v: View, q: Assessment) {
    forall i :: 0 <= i < |g.stages| ==> IsComplete(g, v, q, g.stages[i]) == Done
  }

  predicate DoneBefore(g: Graph, v: View, q: Assessment, i: nat)
    requires i <= |g.stages|
  {
    forall k :: 0 <= k < i ==> IsComplete(g, v, q, g.stages[k]) == Done
  }

  /** The loop over stages, stopping at the first one that is not complete. */
  method PlanRequestLoop(g: Graph, v: View, q: Assessment) returns (r: Result<seq<Spec>, PlanError>)
    ensures r == PlanRequest(g, v, q)
  {
    hide IsComplete, PlanStage, SpecsFor;
    for i := 0 to |g.stages|
      invariant PlanFrom(g, v, q, 0) == PlanFrom(g, v, q, i)
    {
      var check := IsComplete(g, v, q, g.stages[i]);
      if check == Raises {
        return Failure(WrongOutput);
      }
      if check == Pending {
        var planned := PlanStage(g, v, q, g.stages[i]);
        if planned.Failure? {
          return Failure(planned.error);
        }
        return Success(SpecsFor(g.stages[i], planned.value));
      }
    }
    return Success([]);
  }
}
