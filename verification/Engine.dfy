/** The run engine: each verb as the list of durable writes it makes, in order
    (src/mootloop/orchestrator.py, src/mootloop/journal.py:84-121, src/mootloop/decisions.py:224-384,
    src/mootloop/citations/check_runner.py:178-343). */
module Engine {
  import opened Wrappers
  import opened Layout
  import opened Pipeline
  import opened Stages
  import opened Journal
  import opened Decisions

  /** One request or document unit of the run. */
  datatype Unit = Unit(requestId: string)

  /** What a run committed to at launch. `codeOf` is the request family, in upper case; `rubricVerdict` is
      what a full rubric panel of a request aggregates to; `strip` takes the white space off both ends. */
  datatype Config = Config(
    runId: string,
    task: string,
    mode: Mode,
    graph: Graph,
    units: seq<Unit>,
    assess: nat -> Assessment,
    maxAttempts: nat,
    hardCap: Option<real>,
    hardHuman: Kind -> bool,
    codeOf: string -> string,
    rubricVerdict: (nat, seq<TurnOutput>) -> GateStatus,
    strip: string -> string)
  {
    function Z(): Sizes { graph.SlotSizes() }

    function Id(i: nat, s: Slot): string
      requires Z().Has(s)
    {
      SlotTurnId(runId, Z(), i, s)
    }
  }

  /** The durable state of a run: its journal, its write-once turn bodies and its decision store. */
  datatype Sys = Sys(journal: seq<Event>, bodies: map<string, TurnRecord>, log: Log) {
    function State(): RunState { Fold(journal) }
  }

  datatype Write = J(event: Event) | B(record: TurnRecord) | D(decision: Decision)

  function ApplyWrite(sys: Sys, w: Write): Sys {
    match w
    case J(e) => sys.(journal := sys.journal + [e])
    case B(r) => sys.(bodies := sys.bodies[r.turnId := r])
    case D(d) => sys.(log := sys.log + [d])
  }

  function ApplyAll(sys: Sys, ws: seq<Write>): Sys
    decreases |ws|
  {
    if ws == [] then sys else ApplyAll(ApplyWrite(sys, ws[0]), ws[1..])
  }

  // --- planning ---------------------------------------------------------------------------------------

  /** A schedulable turn of the request at `index`. */
  datatype Turn = Turn(index: nat, spec: Spec)

  predicate Names(cfg: Config, t: Turn, id: string) {
    cfg.Z().Has(t.spec.slot) && cfg.Id(t.index, t.spec.slot) == id
  }

  /** The completed turns of one request. */
  function ViewOf(cfg: Config, completed: map<string, TurnRecord>, i: nat): View {
    map s | s in cfg.Z().Slots() && cfg.Z().Has(s) && cfg.Id(i, s) in completed :: completed[cfg.Id(i, s)].output
  }

  function Turns(i: nat, specs: seq<Spec>): (ts: seq<Turn>)
    ensures forall t :: t in ts <==> t.index == i && t.spec in specs
  {
    if specs == [] then [] else Turns(i, specs[..|specs| - 1]) + [Turn(i, specs[|specs| - 1])]
  }

  function PlanUnit(cfg: Config, completed: map<string, TurnRecord>, i: nat): Result<seq<Spec>, PlanError> {
    PlanRequest(cfg.graph, ViewOf(cfg, completed, i), cfg.assess(i))
  }

  /** The plans of the first `n` requests; one that raises, raises for all. */
  function PlanUnits(cfg: Config, completed: map<string, TurnRecord>, n: nat): Result<seq<Turn>, PlanError> {
    if n == 0 then Success([])
    else
      match PlanUnits(cfg, completed, n - 1)
      case Failure(e) => Failure(e)
      case Success(front) =>
        match PlanUnit(cfg, completed, n - 1)
        case Failure(e) => Failure(e)
        case Success(specs) => Success(front + Turns(n - 1, specs))
  }

  function Plan(cfg: Config, s: RunState): Result<seq<Turn>, PlanError> {
    if s.status != Running then Success([]) else PlanUnits(cfg, s.completed, |cfg.units|)
  }

  function Find(cfg: Config, turns: seq<Turn>, id: string): (t: Option<Turn>)
    ensures t.Some? ==> t.value in turns && Names(cfg, t.value, id)
    ensures t.None? ==> forall x :: x in turns ==> !Names(cfg, x, id)
  {
    if turns == [] then None
    else
      var front := Find(cfg, turns[..|turns| - 1], id);
      if front.Some? then front
      else if Names(cfg, turns[|turns| - 1], id) then Some(turns[|turns| - 1])
      else None
  }

  predicate UnitComplete(cfg: Config, completed: map<string, TurnRecord>, i: nat) {
    RequestComplete(cfg.graph, ViewOf(cfg, completed, i), cfg.assess(i))
  }

  predicate AllComplete(cfg: Config, completed: map<string, TurnRecord>) {
    forall i: nat | i < |cfg.units| :: UnitComplete(cfg, completed, i)
  }

  // --- provider answers -----------------------------------------------------------------------------------

  datatype Usage = Usage(usd: real, signature: string)

  /** One provider call: what its text parses to, the turn gates' verdicts, what it cost, and its id. */
  datatype Answer = Answer(
    output: Option<TurnOutput>,
    gates: seq<(string, GateStatus)>,
    halted: bool,
    usage: Option<Usage>,
    call: Option<string>)

  predicate Accepts(ans: Answer, schema: Schema) {
    ans.output.Some? && Conforms(ans.output.value, schema) && !ans.halted
  }

  // --- spend ---------------------------------------------------------------------------------------------

  /** Whether a legacy caller's result is already booked: the same usage, since the turn's last discard. */
  predicate BookedSinceDiscard(journal: seq<Event>, id: string, signature: string) {
    if journal == [] then false
    else
      var e := journal[|journal| - 1];
      if e.TurnDiscarded? && e.turnId == id then false
      else
        || (e.SpendRecorded? && e.turnId == id && e.signature == signature)
        || BookedSinceDiscard(journal[..|journal| - 1], id, signature)
  }

  predicate Booked(journal: seq<Event>, id: string, ans: Answer) {
    ans.usage.Some? &&
    if ans.call.Some? then SpendsOf(journal, id, ans.call.value) > 0
    else BookedSinceDiscard(journal, id, ans.usage.value.signature)
  }

  function BookSpend(sys: Sys, id: string, ans: Answer, dedupe: bool): seq<Write> {
    if ans.usage.None? || (dedupe && Booked(sys.journal, id, ans)) then []
    else [J(SpendRecorded(id, ans.usage.value.usd, ans.usage.value.signature, ans.call))]
  }

  function EffectiveCap(cfg: Config, s: RunState): Option<real> {
    if s.capRaisedTo.Some? then s.capRaisedTo else cfg.hardCap
  }

  /** Unsettled reservations press against the cap. */
  predicate OverCap(cfg: Config, s: RunState) {
    EffectiveCap(cfg, s).Some? && s.spend + Total(s.pending) >= EffectiveCap(cfg, s).value
  }

  function CapTransition(sys: Sys): seq<Write> {
    if sys.State().Halted() then [] else [J(RunFinished(Capped))]
  }

  // --- finalize -------------------------------------------------------------------------------------------

  function ProposalsOf(cfg: Config, r: TurnRecord): seq<Proposal> {
    if r.schema != DraftSchema || r.requestId.None? then []
    else ProposalsFor(r.output, r.requestId.value, cfg.codeOf(r.requestId.value), cfg.graph.document)
  }

  /** The gates of every completed draft, in completion order. */
  function AllProposals(cfg: Config, journal: seq<Event>): seq<Proposal> {
    if journal == [] then []
    else
      var e := journal[|journal| - 1];
      AllProposals(cfg, journal[..|journal| - 1]) + if e.TurnCompleted? then ProposalsOf(cfg, e.record) else []
  }

  /** The store's appends for a derivation. */
  function DeriveWrites(log: Log, ps: seq<Proposal>): seq<Write>
    decreases |ps|
  {
    if ps == [] then []
    else if ps[0].Key() in Keys(log) then DeriveWrites(log, ps[1..])
    else
      var d := Decision(Count(log), ps[0], Open, None);
      [D(d)] + DeriveWrites(log + [d], ps[1..])
  }

  predicate IsOpen(log: Log, id: nat) {
    Latest(log, id).Some? && Latest(log, id).value.status == Open
  }

  predicate OpenKind(log: Log, which: Kind -> bool) {
    exists id: nat | id < Count(log) :: IsOpen(log, id) && which(Latest(log, id).value.proposal.kind)
  }

  // --- the final rubric gate ------------------------------------------------------------------------------

  /** The place of a request among the units. */
  function UnitOf(units: seq<Unit>, requestId: string): Option<nat> {
    if units == [] then None
    else
      var front := UnitOf(units[..|units| - 1], requestId);
      if front.Some? then front
      else if units[|units| - 1].requestId == requestId then Some(|units| - 1)
      else None
  }

  predicate PanelSeat(cfg: Config, i: nat, id: string) {
    exists m: nat | 1 <= m <= cfg.graph.panels.rubricJudges ::
      cfg.Z().Has(RubricFinal(m)) && cfg.Id(i, RubricFinal(m)) == id
  }

  predicate RubricRecorded(cfg: Config, journal: seq<Event>, i: nat) {
    exists k | 0 <= k < |journal| ::
      journal[k].GateEvaluated? && journal[k].gate == "rubric" && PanelSeat(cfg, i, journal[k].turnId)
  }

  /** The panel's outputs, once every seat is filled. */
  function Panel(v: View, seats: seq<Slot>): seq<TurnOutput> {
    if seats == [] then []
    else Panel(v, seats[..|seats| - 1]) + if seats[|seats| - 1] in v then [v[seats[|seats| - 1]]] else []
  }

  /** When a request's rubric panel is full and not yet recorded: its aggregate verdict, on the seat that
      asked. */
  function RubricGateWrites(cfg: Config, sys: Sys, r: TurnRecord): seq<Write> {
    if r.stage != InGraph(RubricGate) || r.requestId.None? then []
    else
      var i := UnitOf(cfg.units, r.requestId.value);
      if i.None? then []
      else
        var v := ViewOf(cfg, sys.State().completed, i.value);
        var seats := Seats(cfg.graph, RubricGate);
        if !AllIn(v, seats) || RubricRecorded(cfg, sys.journal, i.value) then []
        else [J(GateEvaluated(r.turnId, "rubric", cfg.rubricVerdict(i.value, Panel(v, seats))))]
  }

  /** The completed records, in completion order. */
  function Records(journal: seq<Event>): seq<TurnRecord> {
    if journal == [] then []
    else
      var e := journal[|journal| - 1];
      Records(journal[..|journal| - 1]) + if e.TurnCompleted? then [e.record] else []
  }

  function RubricGates(cfg: Config, sys: Sys, records: seq<TurnRecord>): seq<Write> {
    if records == [] then []
    else
      var before := RubricGates(cfg, sys, records[..|records| - 1]);
      before + RubricGateWrites(cfg, ApplyAll(sys, before), records[|records| - 1])
  }

  /** Once every request is complete: derive what is missing, record the rubric panels that are not, then
      finish or wait for the attorney. */
  function Finalize(cfg: Config, sys: Sys): seq<Write> {
    var s := sys.State();
    if (s.status != Running && s.status != NeedsDecisions) || !AllComplete(cfg, s.completed) then []
    else
      var derived := DeriveWrites(sys.log, AllProposals(cfg, sys.journal));
      var after := ApplyAll(sys, derived);
      var gates := RubricGates(cfg, after, Records(sys.journal));
      derived + gates + Ending(cfg, s.status, after.log)
  }

  function Ending(cfg: Config, status: Status, log: Log): seq<Write> {
    if OpenKind(log, cfg.hardHuman) then (if status == NeedsDecisions then [] else [J(RunFinished(NeedsDecisions))])
    else [J(RunFinished(Finished))]
  }

  /** The stage a gated run is about to enter, when all planned turns are of it. */
  function PoisedAt(turns: seq<Turn>): Option<Stage> {
    if turns != [] && forall t :: t in turns ==> t.spec.stage == turns[0].spec.stage then Some(turns[0].spec.stage)
    else None
  }

  predicate CheckpointStage(st: Stage) {
    st == PartnerLoop || st == OcAttack || st == JudgePanel || st == NarrativeAssessment
  }

  function MaybeCheckpoint(cfg: Config, sys: Sys): seq<Write> {
    var s := sys.State();
    if s.mode != Gated || s.status != Running || Plan(cfg, s).Failure? then []
    else
      var at := PoisedAt(Plan(cfg, s).value);
      if at.Some? && CheckpointStage(at.value) && BeforeStage(at.value) !in s.cleared then
        [J(CheckpointReached(BeforeStage(at.value)))]
      else if PolicyDecisions !in s.cleared && OpenKind(sys.log, k => !cfg.hardHuman(k)) then
        [J(CheckpointReached(PolicyDecisions))]
      else []
  }

  // --- recording a turn -----------------------------------------------------------------------------------

  datatype EngineError =
    | AlreadyStarted | NotStarted | NotSchedulable | PlanRaised | ConflictingBody | CannotPause | NotPaused
    | NotAtCheckpoint | NotBlocked | StillBlocked | EmptyReason | Resolving(error: ResolveError)
    | ConflictingRecord | DraftsIncomplete | CheckRejected

  /** What a verb writes, and the exception it ends with, if any. */
  datatype Ran = Ran(writes: seq<Write>, error: Option<EngineError>)

  function Attempts(s: RunState, id: string): nat {
    if id in s.discarded then s.discarded[id] else 0
  }

  function Ceiling(cfg: Config, s: RunState): nat {
    cfg.maxAttempts + s.granted
  }

  function RecordOf(cfg: Config, s: RunState, t: Turn, ans: Answer, now: string): TurnRecord
    requires cfg.Z().Has(t.spec.slot) && t.index < |cfg.units| && ans.output.Some?
  {
    var id := cfg.Id(t.index, t.spec.slot);
    TurnRecord(id, Some(cfg.units[t.index].requestId), InGraph(t.spec.stage), t.spec.schema, Attempts(s, id) + 1,
               ans.output.value, ans.gates, now)
  }

  function Discard(cfg: Config, sys: Sys, id: string, ans: Answer): seq<Write> {
    var s := sys.State();
    var attempt := Attempts(s, id) + 1;
    BookSpend(sys, id, ans, false)
    + [J(TurnDiscarded(id, attempt, "rejected"))]
    + if attempt >= Ceiling(cfg, s) then [J(RunFinished(NeedsAttention))] else []
  }

  function GateWrites(id: string, gates: seq<(string, GateStatus)>): (ws: seq<Write>)
    ensures forall w :: w in ws ==> w.J? && w.event.GateEvaluated?
  {
    if gates == [] then []
    else GateWrites(id, gates[..|gates| - 1])
         + [J(GateEvaluated(id, gates[|gates| - 1].0, gates[|gates| - 1].1))]
  }

  /** The record a write-once body settles on: the one already there if only its time differs. */
  function SettleBody(bodies: map<string, TurnRecord>, r: TurnRecord): Option<TurnRecord> {
    if r.turnId !in bodies then Some(r)
    else if bodies[r.turnId] == r.(completedAt := bodies[r.turnId].completedAt) then Some(bodies[r.turnId])
    else None
  }

  /** Everything up to the turn body. */
  function Prelude(sys: Sys, t: Turn, id: string, ans: Answer): seq<Write> {
    GateWrites(id, ans.gates)
    + if sys.State().currentStage == Some(t.spec.stage) then [] else [J(StageStarted(t.spec.stage))]
  }

  /** The body, the gates it implies, its spend, and only then the completion. */
  function Completion(cfg: Config, sys: Sys, rec: TurnRecord, ans: Answer): seq<Write> {
    (if rec.turnId in sys.bodies then [] else [B(rec)])
    + DeriveWrites(sys.log, ProposalsOf(cfg, rec))
    + BookSpend(sys, rec.turnId, ans, ans.call.Some?)
    + [J(TurnCompleted(rec))]
  }

  /** What follows a completion: the rubric gate, the cap, then finalization, then a gated checkpoint. */
  function Aftermath(cfg: Config, sys: Sys, rec: TurnRecord): seq<Write> {
    var rubric := RubricGateWrites(cfg, sys, rec);
    rubric + Onward(cfg, ApplyAll(sys, rubric))
  }

  function Onward(cfg: Config, sys: Sys): seq<Write> {
    if OverCap(cfg, sys.State()) then CapTransition(sys)
    else
      var done := Finalize(cfg, sys);
      done + MaybeCheckpoint(cfg, ApplyAll(sys, done))
  }

  /** Looking for a checkpoint plans, and planning may raise: the call then ends with that exception, its
      writes made. */
  function Raised(cfg: Config, sys: Sys, rec: TurnRecord): Option<EngineError> {
    var before := ApplyAll(sys, RubricGateWrites(cfg, sys, rec));
    if OverCap(cfg, before.State()) then None
    else if CheckpointRaises(cfg, ApplyAll(before, Finalize(cfg, before)).State()) then Some(PlanRaised)
    else None
  }

  predicate CheckpointRaises(cfg: Config, s: RunState) {
    s.mode == Gated && s.status == Running && Plan(cfg, s).Failure?
  }

  function RecordSpec(cfg: Config, sys: Sys, t: Turn, ans: Answer, now: string): Ran
    requires cfg.Z().Has(t.spec.slot) && t.index < |cfg.units|
  {
    var id := cfg.Id(t.index, t.spec.slot);
    if ans.output.None? || !Conforms(ans.output.value, t.spec.schema) then Ran(Discard(cfg, sys, id, ans), None)
    else if ans.halted then
      var gates := GateWrites(id, ans.gates);
      Ran(gates + Discard(cfg, ApplyAll(sys, gates), id, ans), None)
    else
      var prelude := Prelude(sys, t, id, ans);
      var sys1 := ApplyAll(sys, prelude);
      var rec := SettleBody(sys1.bodies, RecordOf(cfg, sys.State(), t, ans, now));
      if rec.None? then Ran(prelude, Some(ConflictingBody))
      else
        var completion := Completion(cfg, sys1, rec.value, ans);
        var done := ApplyAll(sys1, completion);
        Ran(prelude + completion + Aftermath(cfg, done, rec.value), Raised(cfg, done, rec.value))
  }

  function RecordTurn(cfg: Config, sys: Sys, id: string, ans: Answer, now: string): Ran {
    var s := sys.State();
    if sys.journal == [] then Ran([], Some(NotStarted))
    else if id in s.completed then
      var spend := BookSpend(sys, id, ans, true);
      Ran(spend + Finalize(cfg, ApplyAll(sys, spend)), None)
    else
      var plan := Plan(cfg, s);
      if plan.Failure? then Ran([], Some(PlanRaised))
      else
        var t := Find(cfg, plan.value, id);
        if t.None? || t.value.index >= |cfg.units| then Ran([], Some(NotSchedulable))
        else RecordSpec(cfg, sys, t.value, ans, now)
  }

  // --- the other verbs --------------------------------------------------------------------------------------

  function TimesStarted(journal: seq<Event>): nat {
    if journal == [] then 0
    else TimesStarted(journal[..|journal| - 1]) + if journal[|journal| - 1].RunStarted? then 1 else 0
  }

  /** `same` says that the caller asked for an idempotent start and that its launch is the committed one. */
  function Start(cfg: Config, sys: Sys, same: bool): Ran {
    if sys.journal != [] then Ran([], if same && TimesStarted(sys.journal) == 1 then None else Some(AlreadyStarted))
    else
      var started := [J(RunStarted(cfg.task, cfg.mode))];
      Ran(started + Finalize(cfg, ApplyAll(sys, started)), None)
  }

  /** Planning itself moves a run that is at its cap. */
  function PlanNext(cfg: Config, sys: Sys): seq<Write> {
    var s := sys.State();
    if sys.journal != [] && !s.Halted() && OverCap(cfg, s) then CapTransition(sys) else []
  }

  function Pause(sys: Sys, reason: string): Ran {
    if sys.journal == [] then Ran([], Some(NotStarted))
    else if sys.State().Terminal() then Ran([], Some(CannotPause))
    else Ran([J(RunPaused(reason))], None)
  }

  function Resume(sys: Sys): Ran {
    if sys.State().status != Paused then Ran([], Some(NotPaused)) else Ran([J(RunResumed)], None)
  }

  function LastBoundary(journal: seq<Event>): Boundary {
    if journal == [] then UnknownBoundary
    else
      var e := journal[|journal| - 1];
      if e.CheckpointReached? then e.boundary else LastBoundary(journal[..|journal| - 1])
  }

  function Continue(sys: Sys): Ran {
    if sys.State().status != Checkpoint then Ran([], Some(NotAtCheckpoint))
    else Ran([J(CheckpointCleared(LastBoundary(sys.journal)))], None)
  }

  function RaiseCap(sys: Sys, toUsd: real): Ran {
    if sys.journal == [] then Ran([], Some(NotStarted)) else Ran([J(CapRaised(toUsd))], None)
  }

  function NeedAttention(sys: Sys): Ran {
    if sys.journal == [] then Ran([], Some(NotStarted)) else Ran([J(RunFinished(NeedsAttention))], None)
  }

  function Intend(sys: Sys, id: string, usd: real): Ran {
    if sys.journal == [] then Ran([], Some(NotStarted)) else Ran([J(TurnIntent(id, usd))], None)
  }

  /** A turn that spent its retry budget without completing. */
  predicate Blocks(s: RunState, id: string, ceiling: nat) {
    id in s.discarded && s.discarded[id] >= ceiling && id !in s.completed
  }

  predicate Blocked(s: RunState, ceiling: nat) {
    exists id :: id in s.discarded && Blocks(s, id, ceiling)
  }

  function Reopen(cfg: Config, sys: Sys, reason: string, grant: nat): Ran {
    var s := sys.State();
    if cfg.strip(reason) == "" then Ran([], Some(EmptyReason))
    else if s.status != NeedsAttention then Ran([], Some(NotBlocked))
    else if Blocked(s, Ceiling(cfg, s) + grant) then Ran([], Some(StillBlocked))
    else Ran([J(RunReopened(cfg.strip(reason), grant))], None)
  }

  /** The launch's queue item was delivered; and a run-level gate was evaluated. Neither moves the run. */
  function Note(sys: Sys, e: Event): Ran
    requires e.RunEnqueued? || e.GateEvaluated?
  {
    if sys.journal == [] then Ran([], Some(NotStarted)) else Ran([J(e)], None)
  }

  // --- citation checks --------------------------------------------------------------------------------------

  /** A check's turn id names its proposition. */
  function CheckId(cfg: Config, proposition: string): string {
    cfg.runId + "-cite-" + proposition
  }

  /** One proposition check: what it reserves, and what the provider then answers. `late` says that another
      process completed it between the look at the journal and the taking of the lock. */
  datatype CheckCall = CheckCall(proposition: string, maxUsd: real, ans: Answer, now: string, late: bool)

  function CheckRecord(cfg: Config, c: CheckCall): TurnRecord
    requires c.ans.output.Some?
  {
    TurnRecord(CheckId(cfg, c.proposition), None, CitationProposition, CiteCheckSchema, 1, c.ans.output.value, [],
               c.now)
  }

  function ReserveWrites(sys: Sys, id: string, usd: real): seq<Write> {
    if HasKey(sys.State().pending, id) then [] else [J(TurnIntent(id, usd))]
  }

  /** Body, spend and completion of a check whose result is valid. */
  function CheckCompletion(sys: Sys, rec: TurnRecord, ans: Answer): seq<Write> {
    (if rec.turnId in sys.bodies then [] else [B(rec)])
    + BookSpend(sys, rec.turnId, ans, true)
    + [J(TurnCompleted(rec))]
  }

  /** One check under the run lock. One that was seen completed, or is over the cap, writes nothing. */
  function CheckOne(cfg: Config, sys: Sys, c: CheckCall): Ran {
    var id := CheckId(cfg, c.proposition);
    var s := sys.State();
    if (id in s.completed && !c.late) || OverCap(cfg, s) then Ran([], None)
    else
      var reserve := ReserveWrites(sys, id, c.maxUsd);
      if !Accepts(c.ans, CiteCheckSchema) then Ran(reserve, Some(CheckRejected))
      else if id in s.completed then Ran(reserve, None)
      else
        var sys1 := ApplyAll(sys, reserve);
        var rec := SettleBody(sys1.bodies, CheckRecord(cfg, c));
        if rec.None? then Ran(reserve, Some(ConflictingBody))
        else Ran(reserve + CheckCompletion(sys1, rec.value, c.ans), None)
  }

  /** The checks of one run, in order, up to the first that raises. */
  function CheckEach(cfg: Config, sys: Sys, calls: seq<CheckCall>): Ran
    decreases |calls|
  {
    if calls == [] then Ran([], None)
    else
      var first := CheckOne(cfg, sys, calls[0]);
      if first.error.Some? then first
      else
        var rest := CheckEach(cfg, ApplyAll(sys, first.writes), calls[1..]);
        Ran(first.writes + rest.writes, rest.error)
  }

  /** Checks run only once drafting is complete, and end with the support gate and the citation gate. */
  function CheckCitations(cfg: Config, sys: Sys, calls: seq<CheckCall>, digest: string, support: GateStatus,
                          citation: GateStatus): Ran
  {
    var s := sys.State();
    if sys.journal == [] || (s.status != Finished && s.status != NeedsDecisions) then Ran([], Some(DraftsIncomplete))
    else
      var ran := CheckEach(cfg, sys, calls);
      if ran.error.Some? then ran
      else
        Ran(ran.writes
            + [J(GateEvaluated(cfg.runId + "-citation-propositions-" + digest, "citation_propositions", support)),
               J(GateEvaluated(cfg.runId + "-citations", "citation", citation))], None)
  }

  // --- resolving a decision ------------------------------------------------------------------------------------

  function LastRecorded(journal: seq<Event>, id: nat): Option<Event> {
    if journal == [] then None
    else
      var e := journal[|journal| - 1];
      if e.DecisionRecorded? && e.decisionId == id then Some(e) else LastRecorded(journal[..|journal| - 1], id)
  }

  function RecordedFor(id: nat, r: Resolution): Event {
    DecisionRecorded(id, r.action, r.decidedBy, r.source, r.decidedAt)
  }

  function RecordResolution(journal: seq<Event>, id: nat, r: Resolution): Ran {
    var last := LastRecorded(journal, id);
    if last.None? then Ran([J(RecordedFor(id, r))], None)
    else if last.value == RecordedFor(id, r) then Ran([], None)
    else Ran([], Some(ConflictingRecord))
  }

  /** The journal entry and the finalization that follow a stored resolution. */
  function AfterResolution(cfg: Config, sys: Sys, d: Decision): Ran {
    if d.resolution.None? then Ran([], None)
    else
      var recorded := RecordResolution(sys.journal, d.id, d.resolution.value);
      if recorded.error.Some? then recorded
      else Ran(recorded.writes + Finalize(cfg, ApplyAll(sys, recorded.writes)), None)
  }

  function Resolve(cfg: Config, sys: Sys, id: nat, r: Resolution): Ran {
    if sys.journal == [] then Ran([], Some(NotStarted))
    else
      match PlanResolve(sys.log, id, r)
      case Refused(e) => Ran([], Some(Resolving(e)))
      case Retry(stored) => AfterResolution(cfg, sys, stored)
      case Fresh(d) =>
        var after := AfterResolution(cfg, ApplyWrite(sys, D(d)), d);
        Ran([D(d)] + after.writes, after.error)
  }
}
