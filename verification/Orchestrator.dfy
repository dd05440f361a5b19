/** The orchestrator and its provider driver, writing step by step to the durable stores
    (src/mootloop/orchestrator.py, src/mootloop/provider_driver.py:97-173,
    src/mootloop/citations/check_runner.py:178-343). Every method is tied to the
    list of writes that `Engine` gives for it. */
module Orchestrator {
  import opened Wrappers
  import opened Pipeline
  import opened Stages
  import opened Journal
  import opened Decisions
  import opened Engine
  import opened EngineSafety
  import opened EngineVerbs
  import opened EngineRuns
  import opened EngineRetry
  import opened EngineDrive

  lemma {:induction false} DeriveApplies(sys: Sys, ps: seq<Proposal>)
    ensures ApplyAll(sys, DeriveWrites(sys.log, ps)) == sys.(log := Derive(sys.log, ps))
    decreases |ps|
  {
    if ps != [] {
      if ps[0].Key() in Keys(sys.log) {
        DeriveApplies(sys, ps[1..]);
      } else {
        var d := Decision(Count(sys.log), ps[0], Open, None);
        DeriveApplies(sys.(log := sys.log + [d]), ps[1..]);
        var rest := DeriveWrites(sys.log + [d], ps[1..]);
        assert ([D(d)] + rest)[1..] == rest;
      }
    }
  }

  lemma {:induction false} CompletedGrows(sys: Sys, ws: seq<Write>)
    ensures sys.State().completed.Keys <= ApplyAll(sys, ws).State().completed.Keys
    decreases |ws|
  {
    if ws != [] {
      CompletedChange(sys, ws[0]);
      CompletedGrows(ApplyWrite(sys, ws[0]), ws[1..]);
    }
  }

  class Orchestrator {
    const cfg: Config
    var journal: seq<Event>
    var bodies: map<string, TurnRecord>
    var log: Log

    constructor (cfg: Config)
      ensures this.cfg == cfg && Durable() == Empty
    {
      this.cfg := cfg;
      journal, bodies, log := [], map[], [];
    }

    function Durable(): Sys
      reads this
    {
      Sys(journal, bodies, log)
    }

    method Append(e: Event)
      modifies this`journal
      ensures Durable() == ApplyWrite(old(Durable()), J(e)) == ApplyAll(old(Durable()), [J(e)])
    {
      ApplyOne(Durable(), J(e));
      journal := journal + [e];
    }

    /** The write-once body: writes it, keeps an equal one, or refuses. */
    method WriteBody(r: TurnRecord) returns (kept: Option<TurnRecord>)
      modifies this`bodies
      ensures kept == SettleBody(old(bodies), r)
      ensures bodies == if kept.Some? then old(bodies)[r.turnId := kept.value] else old(bodies)
    {
      if r.turnId !in bodies {
        bodies := bodies[r.turnId := r];
        return Some(r);
      }
      var existing := bodies[r.turnId];
      if existing == r.(completedAt := existing.completedAt) {
        return Some(existing);
      }
      return None;
    }

    method DeriveGates(ps: seq<Proposal>)
      modifies this`log
      ensures Durable() == ApplyAll(old(Durable()), DeriveWrites(old(log), ps))
    {
      DeriveApplies(Durable(), ps);
      log := DeriveAndStore(log, ps);
    }

    method Spend(id: string, ans: Answer, dedupe: bool)
      modifies this`journal
      ensures Durable() == ApplyAll(old(Durable()), BookSpend(old(Durable()), id, ans, dedupe))
    {
      if ans.usage.None? || (dedupe && Booked(journal, id, ans)) {
        return;
      }
      Append(SpendRecorded(id, ans.usage.value.usd, ans.usage.value.signature, ans.call));
    }

    method ToCap()
      modifies this`journal
      ensures Durable() == ApplyAll(old(Durable()), CapTransition(old(Durable())))
    {
      var state := Journal.Replay(journal);
      if !state.Halted() {
        Append(RunFinished(Capped));
      }
    }

    method ToFinal()
      modifies this`journal, this`log
      ensures Durable() == ApplyAll(old(Durable()), Finalize(cfg, old(Durable())))
    {
      var state := Journal.Replay(journal);
      if state.status != Running && state.status != NeedsDecisions {
        return;
      }
      if !AllComplete(cfg, state.completed) {
        return;
      }
      ghost var before := Durable();
      ghost var derived := DeriveWrites(log, AllProposals(cfg, journal));
      var records := Records(journal);
      DeriveGates(AllProposals(cfg, journal));
      ghost var after := Durable();
      ghost var gates := RubricGates(cfg, after, records);
      EmitRubrics(records);
      EventsLeaveStores(after, gates) by { RubricsAreNotes(cfg, after, records); }
      ApplyConcat(before, derived, gates);
      if OpenKind(log, cfg.hardHuman) {
        if state.status != NeedsDecisions {
          Append(RunFinished(NeedsDecisions));
          ApplyConcat(before, derived + gates, [J(RunFinished(NeedsDecisions))]);
        } else {
          assert derived + gates + [] == derived + gates;
        }
        return;
      }
      Append(RunFinished(Finished));
      ApplyConcat(before, derived + gates, [J(RunFinished(Finished))]);
    }

    /** When the last seat of a request's rubric panel is in, records the panel's verdict, once. */
    method EmitRubric(r: TurnRecord)
      modifies this`journal
      ensures Durable() == ApplyAll(old(Durable()), RubricGateWrites(cfg, old(Durable()), r))
    {
      if r.stage != InGraph(RubricGate) || r.requestId.None? {
        return;
      }
      var state := Journal.Replay(journal);
      var i := UnitOf(cfg.units, r.requestId.value);
      if i.None? {
        return;
      }
      var v := ViewOf(cfg, state.completed, i.value);
      var seats := Seats(cfg.graph, RubricGate);
      if !AllIn(v, seats) || RubricRecorded(cfg, journal, i.value) {
        return;
      }
      Append(GateEvaluated(r.turnId, "rubric", cfg.rubricVerdict(i.value, Panel(v, seats))));
    }

    method EmitRubrics(records: seq<TurnRecord>)
      modifies this`journal
      ensures Durable() == ApplyAll(old(Durable()), RubricGates(cfg, old(Durable()), records))
    {
      ghost var before := Durable();
      for n := 0 to |records|
        invariant Durable() == ApplyAll(before, RubricGates(cfg, before, records[..n]))
      {
        ghost var mid := Durable();
        EmitRubric(records[n]);
        assert records[..n + 1][..n] == records[..n];
        ApplyConcat(before, RubricGates(cfg, before, records[..n]), RubricGateWrites(cfg, mid, records[n]));
      }
      assert records[..|records|] == records;
    }

    /** A gated run plans to see where it is poised; planning may raise. */
    method ToCheckpoint() returns (error: Option<EngineError>)
      modifies this`journal
      ensures error == if CheckpointRaises(cfg, old(Durable()).State()) then Some(PlanRaised) else None
      ensures Durable() == ApplyAll(old(Durable()), MaybeCheckpoint(cfg, old(Durable())))
    {
      var state := Journal.Replay(journal);
      error := None;
      if state.mode != Gated || state.status != Running {
        return;
      }
      var specs := PlanTurns(state);
      if specs.Failure? {
        return Some(PlanRaised);
      }
      var at := PoisedAt(specs.value);
      if at.Some? && CheckpointStage(at.value) && BeforeStage(at.value) !in state.cleared {
        Append(CheckpointReached(BeforeStage(at.value)));
      } else if PolicyDecisions !in state.cleared && OpenKind(log, k => !cfg.hardHuman(k)) {
        Append(CheckpointReached(PolicyDecisions));
      }
    }

    /** The planning loop over requests. */
    method PlanTurns(state: RunState) returns (plan: Result<seq<Turn>, PlanError>)
      ensures plan == Plan(cfg, state)
    {
      if state.status != Running {
        return Success([]);
      }
      var specs: seq<Turn> := [];
      for i := 0 to |cfg.units|
        invariant PlanUnits(cfg, state.completed, i) == Success(specs)
      {
        var unit := PlanUnit(cfg, state.completed, i);
        if unit.Failure? {
          FailureSpreads(state.completed, i + 1);
          return Failure(unit.error);
        }
        specs := specs + Turns(i, unit.value);
      }
      return Success(specs);
    }

    lemma FailureSpreads(completed: map<string, TurnRecord>, i: nat)
      requires i <= |cfg.units| && PlanUnits(cfg, completed, i).Failure?
      ensures PlanUnits(cfg, completed, |cfg.units|) == PlanUnits(cfg, completed, i)
      decreases |cfg.units| - i
    {
      if i < |cfg.units| {
        FailureSpreads(completed, i + 1);
      }
    }

    method Reject(id: string, ans: Answer)
      modifies this`journal
      ensures Durable() == ApplyAll(old(Durable()), Discard(cfg, old(Durable()), id, ans))
    {
      ghost var before := Durable();
      ghost var spend := BookSpend(before, id, ans, false);
      Spend(id, ans, false);
      InformsOnly(before, spend);
      var state := Journal.Replay(journal);
      var attempt := Attempts(state, id) + 1;
      ghost var w := J(TurnDiscarded(id, attempt, "rejected"));
      Append(TurnDiscarded(id, attempt, "rejected"));
      ApplyConcat(before, spend, [w]);
      if attempt >= Ceiling(cfg, state) {
        Append(RunFinished(NeedsAttention));
        ApplyConcat(before, spend + [w], [J(RunFinished(NeedsAttention))]);
      } else {
        assert spend + [w] + [] == spend + [w];
      }
    }

    method AppendGates(id: string, gates: seq<(string, GateStatus)>)
      modifies this`journal
      ensures Durable() == ApplyAll(old(Durable()), GateWrites(id, gates))
    {
      ghost var before := Durable();
      for i := 0 to |gates|
        invariant Durable() == ApplyAll(before, GateWrites(id, gates[..i]))
      {
        Append(GateEvaluated(id, gates[i].0, gates[i].1));
        assert gates[..i + 1][..i] == gates[..i];
        ApplyConcat(before, GateWrites(id, gates[..i]), [J(GateEvaluated(id, gates[i].0, gates[i].1))]);
      }
      assert gates[..|gates|] == gates;
    }

    /** The body, the gates it implies, its spend, then the completion. */
    method Complete(rec: TurnRecord, ans: Answer)
      requires rec.turnId in bodies ==> bodies[rec.turnId] == rec
      modifies this
      ensures Durable() == ApplyAll(old(Durable()), Completion(cfg, old(Durable()), rec, ans))
    {
      ghost var before := Durable();
      ghost var body := if rec.turnId in bodies then [] else [B(rec)];
      var kept := WriteBody(rec);
      BodyApplies(before, rec);
      ghost var sys1 := Durable();
      ghost var gates := DeriveWrites(log, ProposalsOf(cfg, rec));
      DeriveGates(ProposalsOf(cfg, rec));
      ghost var sys2 := Durable();
      DeriveApplies(sys1, ProposalsOf(cfg, rec));
      ghost var spend := BookSpend(sys2, rec.turnId, ans, ans.call.Some?);
      Spend(rec.turnId, ans, ans.call.Some?);
      Append(TurnCompleted(rec));
      ApplyConcat(before, body, gates);
      ApplyConcat(before, body + gates, spend);
      ApplyConcat(before, body + gates + spend, [J(TurnCompleted(rec))]);
      assert Completion(cfg, before, rec, ans) == body + gates + spend + [J(TurnCompleted(rec))];
    }

    lemma BodyApplies(sys: Sys, rec: TurnRecord)
      requires rec.turnId in sys.bodies ==> sys.bodies[rec.turnId] == rec
      ensures var body := if rec.turnId in sys.bodies then [] else [B(rec)];
        ApplyAll(sys, body) == sys.(bodies := sys.bodies[rec.turnId := rec])
    {
      if rec.turnId in sys.bodies {
        assert sys.bodies[rec.turnId := rec] == sys.bodies;
      } else {
        ApplyOne(sys, B(rec));
      }
    }

    /** The rubric gate, then the cap, or else finalization and a gated checkpoint. */
    method Follow(rec: TurnRecord) returns (error: Option<EngineError>)
      modifies this`journal, this`log
      ensures error == Raised(cfg, old(Durable()), rec)
      ensures Durable() == ApplyAll(old(Durable()), Aftermath(cfg, old(Durable()), rec))
    {
      ghost var start := Durable();
      EmitRubric(rec);
      ghost var before := Durable();
      var state := Journal.Replay(journal);
      if OverCap(cfg, state) {
        ToCap();
        ApplyConcat(start, RubricGateWrites(cfg, start, rec), CapTransition(before));
        return None;
      }
      ToFinal();
      ghost var mid := Durable();
      error := ToCheckpoint();
      ApplyConcat(before, Finalize(cfg, before), MaybeCheckpoint(cfg, mid));
      ApplyConcat(start, RubricGateWrites(cfg, start, rec), Onward(cfg, before));
    }

    method Prepare(t: Turn, id: string, ans: Answer)
      modifies this`journal
      ensures Durable() == ApplyAll(old(Durable()), Prelude(old(Durable()), t, id, ans))
    {
      ghost var before := Durable();
      var state := Journal.Replay(journal);
      AppendGates(id, ans.gates);
      if state.currentStage != Some(t.spec.stage) {
        Append(StageStarted(t.spec.stage));
        ApplyConcat(before, GateWrites(id, ans.gates), [J(StageStarted(t.spec.stage))]);
      } else {
        assert GateWrites(id, ans.gates) + [] == GateWrites(id, ans.gates);
      }
    }

    /** Validate, gate, and record one result of a planned turn; a rejected result is thrown away. */
    method RecordPlanned(t: Turn, ans: Answer, now: string) returns (error: Option<EngineError>)
      requires cfg.Z().Has(t.spec.slot) && t.index < |cfg.units|
      modifies this
      ensures error == RecordSpec(cfg, old(Durable()), t, ans, now).error
      ensures Durable() == ApplyAll(old(Durable()), RecordSpec(cfg, old(Durable()), t, ans, now).writes)
    {
      var id := cfg.Id(t.index, t.spec.slot);
      if ans.output.None? || !Conforms(ans.output.value, t.spec.schema) {
        Reject(id, ans);
        return None;
      }
      ghost var before := Durable();
      if ans.halted {
        AppendGates(id, ans.gates);
        ghost var mid := Durable();
        Reject(id, ans);
        ApplyConcat(before, GateWrites(id, ans.gates), Discard(cfg, mid, id, ans));
        return None;
      }
      var state := Journal.Replay(journal);
      Prepare(t, id, ans);
      ghost var sys1 := Durable();
      var rec := SettleBody(bodies, RecordOf(cfg, state, t, ans, now));
      if rec.None? {
        return Some(ConflictingBody);
      }
      Complete(rec.value, ans);
      ghost var sys2 := Durable();
      error := Follow(rec.value);
      ghost var prelude, completion := Prelude(before, t, id, ans), Completion(cfg, sys1, rec.value, ans);
      ApplyConcat(before, prelude, completion);
      ApplyConcat(before, prelude + completion, Aftermath(cfg, sys2, rec.value));
    }

    method Record(id: string, ans: Answer, now: string) returns (error: Option<EngineError>)
      modifies this
      ensures error == RecordTurn(cfg, old(Durable()), id, ans, now).error
      ensures Durable() == ApplyAll(old(Durable()), RecordTurn(cfg, old(Durable()), id, ans, now).writes)
    {
      if journal == [] {
        return Some(NotStarted);
      }
      var state := Journal.Replay(journal);
      if id in state.completed {
        ghost var before := Durable();
        Spend(id, ans, true);
        ghost var mid := Durable();
        ToFinal();
        ApplyConcat(before, BookSpend(before, id, ans, true), Finalize(cfg, mid));
        return None;
      }
      var plan := PlanTurns(state);
      if plan.Failure? {
        return Some(PlanRaised);
      }
      var t := Find(cfg, plan.value, id);
      if t.None? || t.value.index >= |cfg.units| {
        return Some(NotSchedulable);
      }
      error := RecordPlanned(t.value, ans, now);
    }

    // --- the other verbs -----------------------------------------------------------------------------------

    method StartRun(same: bool) returns (error: Option<EngineError>)
      modifies this
      ensures error == Start(cfg, old(Durable()), same).error
      ensures Durable() == ApplyAll(old(Durable()), Start(cfg, old(Durable()), same).writes)
    {
      if journal != [] {
        if same && TimesStarted(journal) == 1 {
          return None;
        }
        return Some(AlreadyStarted);
      }
      ghost var before := Durable();
      Append(RunStarted(cfg.task, cfg.mode));
      ghost var mid := Durable();
      ToFinal();
      ApplyConcat(before, [J(RunStarted(cfg.task, cfg.mode))], Finalize(cfg, mid));
      return None;
    }

    method NextTurns() returns (plan: Result<seq<Turn>, PlanError>)
      modifies this`journal
      ensures Durable() == ApplyAll(old(Durable()), PlanNext(cfg, old(Durable())))
      ensures var s := old(Durable()).State();
        plan == if old(journal) != [] && s.status == Running && OverCap(cfg, s) then Success([]) else Plan(cfg, s)
    {
      var state := Journal.Replay(journal);
      if journal != [] && !state.Halted() && OverCap(cfg, state) {
        ToCap();
        return Success([]);
      }
      plan := PlanTurns(state);
    }

    method PauseRun(reason: string) returns (error: Option<EngineError>)
      modifies this`journal
      ensures error == Pause(old(Durable()), reason).error
      ensures Durable() == ApplyAll(old(Durable()), Pause(old(Durable()), reason).writes)
    {
      var state := Journal.Replay(journal);
      if journal == [] {
        return Some(NotStarted);
      }
      if state.Terminal() {
        return Some(CannotPause);
      }
      Append(RunPaused(reason));
      return None;
    }

    method ResumeRun() returns (error: Option<EngineError>)
      modifies this`journal
      ensures error == Resume(old(Durable())).error
      ensures Durable() == ApplyAll(old(Durable()), Resume(old(Durable())).writes)
    {
      var state := Journal.Replay(journal);
      if state.status != Paused {
        return Some(NotPaused);
      }
      Append(RunResumed);
      return None;
    }

    /** Clears the last checkpoint reached. */
    method ContinueRun() returns (error: Option<EngineError>)
      modifies this`journal
      ensures error == Continue(old(Durable())).error
      ensures Durable() == ApplyAll(old(Durable()), Continue(old(Durable())).writes)
    {
      var state := Journal.Replay(journal);
      if state.status != Checkpoint {
        return Some(NotAtCheckpoint);
      }
      var boundary := UnknownBoundary;
      for i := 0 to |journal|
        invariant boundary == LastBoundary(journal[..i])
      {
        assert journal[..i + 1][..i] == journal[..i];
        if journal[i].CheckpointReached? {
          boundary := journal[i].boundary;
        }
      }
      assert journal[..|journal|] == journal;
      Append(CheckpointCleared(boundary));
      return None;
    }

    method RaiseCapTo(usd: real) returns (error: Option<EngineError>)
      modifies this`journal
      ensures error == RaiseCap(old(Durable()), usd).error
      ensures Durable() == ApplyAll(old(Durable()), RaiseCap(old(Durable()), usd).writes)
    {
      if journal == [] {
        return Some(NotStarted);
      }
      Append(CapRaised(usd));
      return None;
    }

    method ReopenRun(why: string, grant: nat) returns (error: Option<EngineError>)
      modifies this`journal
      ensures error == Reopen(cfg, old(Durable()), why, grant).error
      ensures Durable() == ApplyAll(old(Durable()), Reopen(cfg, old(Durable()), why, grant).writes)
    {
      var reason := cfg.strip(why);
      if reason == "" {
        return Some(EmptyReason);
      }
      var state := Journal.Replay(journal);
      if state.status != NeedsAttention {
        return Some(NotBlocked);
      }
      if Blocked(state, Ceiling(cfg, state) + grant) {
        return Some(StillBlocked);
      }
      Append(RunReopened(reason, grant));
      return None;
    }

    /** The journal entry of a stored resolution, then finalization. */
    method Recorded(d: Decision) returns (error: Option<EngineError>)
      modifies this
      ensures error == AfterResolution(cfg, old(Durable()), d).error
      ensures Durable() == ApplyAll(old(Durable()), AfterResolution(cfg, old(Durable()), d).writes)
    {
      if d.resolution.None? {
        return None;
      }
      ghost var before := Durable();
      var last := LastRecorded(journal, d.id);
      if last.None? {
        Append(RecordedFor(d.id, d.resolution.value));
      } else if last.value != RecordedFor(d.id, d.resolution.value) {
        return Some(ConflictingRecord);
      }
      ghost var mid := Durable();
      ToFinal();
      ApplyConcat(before, RecordResolution(before.journal, d.id, d.resolution.value).writes, Finalize(cfg, mid));
      return None;
    }

    method ResolveDecision(id: nat, r: Resolution) returns (error: Option<EngineError>)
      modifies this
      ensures error == Resolve(cfg, old(Durable()), id, r).error
      ensures Durable() == ApplyAll(old(Durable()), Resolve(cfg, old(Durable()), id, r).writes)
    {
      if journal == [] {
        return Some(NotStarted);
      }
      match PlanResolve(log, id, r)
      case Refused(e) => error := Some(Resolving(e));
      case Retry(stored) => error := Recorded(stored);
      case Fresh(d) =>
        ghost var before := Durable();
        log := log + [d];
        ghost var mid := Durable();
        ApplyOne(before, D(d));
        error := Recorded(d);
        ApplyConcat(before, [D(d)], AfterResolution(cfg, mid, d).writes);
    }

    // --- citation checks ---------------------------------------------------------------------------------------

    /** One check under the run lock; `open` says that the cap left it unresolved. */
    method CheckCitation(c: CheckCall) returns (open: bool, error: Option<EngineError>)
      modifies this
      ensures error == CheckOne(cfg, old(Durable()), c).error
      ensures Durable() == ApplyAll(old(Durable()), CheckOne(cfg, old(Durable()), c).writes)
      ensures error.None? && !open ==> CheckId(cfg, c.proposition) in Durable().State().completed
      ensures open ==> OverCap(cfg, old(Durable()).State()) && Durable() == old(Durable())
    {
      hide Fold, CheckCompletion;
      var id := CheckId(cfg, c.proposition);
      var state := Journal.Replay(journal);
      if id in state.completed && !c.late {
        return false, None;
      }
      if OverCap(cfg, state) {
        return true, None;
      }
      ghost var before := Durable();
      ghost var reserve := ReserveWrites(before, id, c.maxUsd);
      if !HasKey(state.pending, id) {
        Append(TurnIntent(id, c.maxUsd));
        StateAfter(before, reserve[0]);
      }
      if !Accepts(c.ans, CiteCheckSchema) {
        return false, Some(CheckRejected);
      }
      if id in state.completed {
        return false, None;
      }
      ghost var mid := Durable();
      var rec := SettleBody(bodies, CheckRecord(cfg, c));
      if rec.None? {
        return false, Some(ConflictingBody);
      }
      CompleteCheck(rec.value, c.ans);
      ApplyConcat(before, reserve, CheckCompletion(mid, rec.value, c.ans));
      return false, None;
    }

    method CompleteCheck(rec: TurnRecord, ans: Answer)
      requires rec.turnId in bodies ==> bodies[rec.turnId] == rec
      modifies this
      ensures Durable() == ApplyAll(old(Durable()), CheckCompletion(old(Durable()), rec, ans))
      ensures rec.turnId in Durable().State().completed
    {
      ghost var before := Durable();
      ghost var body := if rec.turnId in bodies then [] else [B(rec)];
      var kept := WriteBody(rec);
      BodyApplies(before, rec);
      ghost var mid := Durable();
      Spend(rec.turnId, ans, true);
      ghost var paid := Durable();
      Append(TurnCompleted(rec));
      StateAfter(paid, J(TurnCompleted(rec)));
      ghost var spend := BookSpend(before, rec.turnId, ans, true);
      ApplyConcat(before, body, spend);
      ApplyConcat(before, body + spend, [J(TurnCompleted(rec))]);
    }

    lemma NoWrites(sys: Sys)
      ensures ApplyAll(sys, []) == sys
    {
    }

    /** What the checks from the `i`-th on write: the `i`-th, then, unless it raised, the rest. */
    lemma EachStep(sys: Sys, calls: seq<CheckCall>, i: nat)
      requires i < |calls|
      ensures var first := CheckOne(cfg, sys, calls[i]);
        var each := CheckEach(cfg, sys, calls[i..]);
        if first.error.Some? then each == first
        else
          var rest := CheckEach(cfg, ApplyAll(sys, first.writes), calls[i + 1..]);
          each == Ran(first.writes + rest.writes, rest.error)
    {
      assert calls[i..][0] == calls[i] && calls[i..][1..] == calls[i + 1..];
    }

    /** Every check ends completed or listed as unresolved, unless one raised. */
    method CheckAll(calls: seq<CheckCall>) returns (unresolved: seq<nat>, error: Option<EngineError>)
      modifies this
      ensures error == CheckEach(cfg, old(Durable()), calls).error
      ensures Durable() == ApplyAll(old(Durable()), CheckEach(cfg, old(Durable()), calls).writes)
      ensures error.None? ==> forall k: nat :: k < |calls| ==>
        k in unresolved || CheckId(cfg, calls[k].proposition) in Durable().State().completed
    {
      hide ApplyAll, CheckOne, Fold, OverCap, ApplyWrite;
      ghost var before := Durable();
      ghost var ws: seq<Write> := [];
      NoWrites(before);
      unresolved := [];
      assert calls[0..] == calls;
      for i := 0 to |calls|
        invariant Durable() == ApplyAll(before, ws)
        invariant CheckEach(cfg, before, calls).writes == ws + CheckEach(cfg, Durable(), calls[i..]).writes
        invariant CheckEach(cfg, before, calls).error == CheckEach(cfg, Durable(), calls[i..]).error
        invariant forall k: nat :: k < i ==>
          k in unresolved || CheckId(cfg, calls[k].proposition) in Durable().State().completed
      {
        ghost var mid, listed := Durable(), unresolved;
        ghost var first := CheckOne(cfg, mid, calls[i]).writes;
        EachStep(mid, calls, i);
        var open;
        open, error := CheckCitation(calls[i]);
        ApplyConcat(before, ws, first);
        if error.Some? {
          return;
        }
        if open {
          unresolved := unresolved + [i];
        }
        CompletedGrows(mid, first);
        assert forall k: nat :: k in listed ==> k in unresolved;
        ghost var rest := CheckEach(cfg, Durable(), calls[i + 1..]).writes;
        assert ws + (first + rest) == ws + first + rest;
        ws := ws + first;
      }
      assert calls[|calls|..] == [] && ws + [] == ws;
      error := None;
    }

    /** The checks of a completed draft set, then the support gate and the citation gate. */
    method RunCitationChecks(calls: seq<CheckCall>, digest: string, support: GateStatus, citation: GateStatus)
        returns (unresolved: seq<nat>, error: Option<EngineError>)
      modifies this
      ensures error == CheckCitations(cfg, old(Durable()), calls, digest, support, citation).error
      ensures Durable() == ApplyAll(old(Durable()),
                CheckCitations(cfg, old(Durable()), calls, digest, support, citation).writes)
      ensures error.None? ==> forall k: nat :: k < |calls| ==>
        k in unresolved || CheckId(cfg, calls[k].proposition) in Durable().State().completed
    {
      var state := Journal.Replay(journal);
      if journal == [] || (state.status != Finished && state.status != NeedsDecisions) {
        return [], Some(DraftsIncomplete);
      }
      ghost var before := Durable();
      ghost var each := CheckEach(cfg, before, calls).writes;
      hide CheckEach, ApplyAll, Fold;
      unresolved, error := CheckAll(calls);
      if error.Some? {
        return;
      }
      var first := GateEvaluated(cfg.runId + "-citation-propositions-" + digest, "citation_propositions", support);
      var second := GateEvaluated(cfg.runId + "-citations", "citation", citation);
      AppendBoth(first, second);
      ApplyConcat(before, each, [J(first), J(second)]);
    }

    /** Two gate verdicts. */
    method AppendBoth(first: Event, second: Event)
      requires first.GateEvaluated? && second.GateEvaluated?
      modifies this`journal
      ensures Durable() == ApplyAll(old(Durable()), [J(first), J(second)])
      ensures Durable().State().completed == old(Durable()).State().completed
    {
      ghost var before := Durable();
      Append(first);
      ghost var mid := Durable();
      StateAfter(before, J(first));
      StateAfter(mid, J(second));
      Append(second);
      assert [J(first), J(second)][1..] == [J(second)];
    }

    // --- the provider driver ---------------------------------------------------------------------------------

    /** What the driver keeps between calls. */
    ghost predicate Driving()
      reads this
    {
      Ok(cfg, {}, Durable()) && journal != [] && cfg.maxAttempts >= 1 && RetryOk(cfg, Durable().State())
    }

    /** The rest of a plan computed once: still planned, or the run has stopped. */
    ghost predicate Pending(turns: seq<Turn>)
      reads this
    {
      Durable().State().status == Running ==>
        forall t :: t in turns ==> PlannedTurn(cfg, Durable().State().completed, t)
    }

    /** Records the turns of one plan in order, skipping the rest once the run stops. */
    method RecordAll(turns: seq<Turn>, answers: (nat, Turn) -> Answer, from: nat, now: string)
        returns (records: nat, error: Option<EngineError>)
      requires Driving() && AllApart(turns) && Pending(turns)
      modifies this
      ensures Driving()
      ensures Budget(cfg, Durable().State()) + records <= Budget(cfg, old(Durable().State()))
      ensures error.None? && turns != [] && old(Durable().State().status) == Running ==> records >= 1
    {
      records := 0;
      for i := 0 to |turns|
        invariant Driving() && Pending(turns[i..])
        invariant Budget(cfg, Durable().State()) + records <= Budget(cfg, old(Durable().State()))
        invariant i == 0 ==> Durable() == old(Durable())
        invariant i > 0 && old(Durable().State().status) == Running ==> records >= 1
      {
        var state := Journal.Replay(journal);
        if state.status == Running && turns[i].index < |cfg.units| && cfg.Z().Has(turns[i].spec.slot) {
          error := RecordOne(turns[i..], answers(from + records, turns[i]), now);
          if error.Some? {
            return;
          }
          records := records + 1;
        } else {
          Skipped(turns[i..]);
        }
        assert turns[i..][1..] == turns[i + 1..];
      }
      error := None;
    }

    /** A driver skips a turn only when the run has stopped. */
    lemma Skipped(turns: seq<Turn>)
      requires cfg.graph.caps.Valid() && turns != [] && Pending(turns)
      requires Durable().State().status != Running || turns[0].index >= |cfg.units|
        || !cfg.Z().Has(turns[0].spec.slot)
      ensures Durable().State().status != Running
    {
      if Durable().State().status == Running {
        assert turns[0] in turns;
        PlannedIsNew(cfg, Durable().State().completed, turns[0]);
        assert false;
      }
    }

    method RecordOne(turns: seq<Turn>, ans: Answer, now: string) returns (error: Option<EngineError>)
      requires Driving() && AllApart(turns) && Pending(turns) && turns != []
      requires Durable().State().status == Running
      requires turns[0].index < |cfg.units| && cfg.Z().Has(turns[0].spec.slot)
      modifies this
      ensures Driving()
      ensures error.None? ==> Pending(turns[1..])
      ensures error.None? ==> Budget(cfg, Durable().State()) < Budget(cfg, old(Durable().State()))
      ensures error.Some? ==> Budget(cfg, Durable().State()) <= Budget(cfg, old(Durable().State()))
    {
      ghost var before := Durable();
      var t := turns[0];
      assert t in turns;
      error := RecordPlanned(t, ans, now);
      OneRecord(before, turns, ans, now);
    }

    /** What recording the head of a plan does to the rest of it. */
    lemma OneRecord(sys: Sys, turns: seq<Turn>, ans: Answer, now: string)
      requires Ok(cfg, {}, sys) && sys.journal != [] && cfg.maxAttempts >= 1 && RetryOk(cfg, sys.State())
      requires turns != [] && AllApart(turns) && sys.State().status == Running
      requires forall t :: t in turns ==> PlannedTurn(cfg, sys.State().completed, t)
      requires turns[0].index < |cfg.units| && cfg.Z().Has(turns[0].spec.slot)
      ensures var ran := RecordSpec(cfg, sys, turns[0], ans, now);
        var next := ApplyAll(sys, ran.writes);
        && Ok(cfg, {}, next) && next.journal != [] && RetryOk(cfg, next.State())
        && (ran.error != Some(ConflictingBody) ==>
              && (forall t :: t in turns[1..] ==> PlannedTurn(cfg, next.State().completed, t))
              && Budget(cfg, next.State()) < Budget(cfg, sys.State()))
        && (ran.error == Some(ConflictingBody) ==> Budget(cfg, next.State()) == Budget(cfg, sys.State()))
    {
      var t := turns[0];
      var ran := RecordSpec(cfg, sys, t, ans, now);
      assert t in turns;
      RecordSpecAllowed(cfg, {}, sys, t, ans, now);
      InvAfter(cfg, {}, sys, ran.writes);
      JournalGrows(sys, ran.writes);
      RecordKeepsRetry(cfg, {}, sys, t, ans, now);
      if ran.error != Some(ConflictingBody) {
        RecordSpendsBudget(cfg, {}, sys, t, ans, now);
        forall k | 1 <= k < |turns|
          ensures PlannedTurn(cfg, ApplyAll(sys, ran.writes).State().completed, turns[k])
        {
          RestStaysPlanned(cfg, {}, sys, t, ans, now, turns[k]);
        }
      } else {
        RaisedKeepsBudget(sys, t, ans, now);
      }
    }

    lemma RaisedKeepsBudget(sys: Sys, t: Turn, ans: Answer, now: string)
      requires Ok(cfg, {}, sys) && sys.journal != [] && sys.State().status == Running
      requires PlannedTurn(cfg, sys.State().completed, t) && cfg.Z().Has(t.spec.slot)
      requires RecordSpec(cfg, sys, t, ans, now).error == Some(ConflictingBody)
      ensures var next := ApplyAll(sys, RecordSpec(cfg, sys, t, ans, now).writes).State();
        Budget(cfg, next) == Budget(cfg, sys.State())
    {
      if !Accepts(ans, t.spec.schema) {
        RejectedOutcome(cfg, sys, t, ans, now);
        assert false;
      } else {
        AcceptedOutcome(cfg, {}, sys, t, ans, now);
        SameBudget(cfg, sys.State(), ApplyAll(sys, RecordSpec(cfg, sys, t, ans, now).writes).State());
      }
    }

    /** Drives the run with whatever the provider answers until nothing more can be recorded. The number
        of results recorded is within the run's budget, so the drive ends; on a graph that can finish, it
        ends with the run stopped, unless planning or a conflicting body raised. */
    method Drive(answers: (nat, Turn) -> Answer, now: string) returns (records: nat, error: Option<EngineError>)
      requires Driving()
      modifies this
      ensures Driving()
      ensures records <= |cfg.units| * cfg.Z().Block() * (cfg.maxAttempts + old(Durable().State().granted))
      ensures error.None? && CanFinish(cfg) ==> Durable().State().status != Running
    {
      BudgetBound(cfg, Durable().State());
      records := 0;
      while true
        invariant Driving()
        invariant Budget(cfg, Durable().State()) + records <= Budget(cfg, old(Durable().State()))
        decreases Budget(cfg, Durable().State())
      {
        var state := Journal.Replay(journal);
        if state.Halted() {
          return records, None;
        }
        if OverCap(cfg, state) {
          StopAtCap();
          return records, None;
        }
        var specs := PlanTurns(state);
        if specs.Failure? {
          return records, Some(PlanRaised);
        }
        if specs.value == [] {
          StopIfComplete();
          return records, None;
        }
        PlanUnitsMembers(cfg, state.completed, |cfg.units|);
        PlanApart(cfg, state.completed, |cfg.units|);
        var n: nat;
        n, error := RecordAll(specs.value, answers, records, now);
        records := records + n;
        if error.Some? {
          return records, error;
        }
      }
    }

    method StopAtCap()
      requires Driving() && Durable().State().status == Running
      modifies this
      ensures Driving() && Durable().State().status == Capped
      ensures Budget(cfg, Durable().State()) == Budget(cfg, old(Durable().State()))
    {
      ghost var before := Durable();
      CapAllowed(cfg, {}, before);
      ToCap();
      Stopped(before, CapTransition(before));
      StateAfter(before, J(RunFinished(Capped)));
      ApplyOne(before, J(RunFinished(Capped)));
    }

    method StopIfComplete()
      requires Driving() && Durable().State().status == Running && Plan(cfg, Durable().State()) == Success([])
      modifies this
      ensures Driving() && (CanFinish(cfg) ==> Durable().State().status != Running)
      ensures Budget(cfg, Durable().State()) == Budget(cfg, old(Durable().State()))
    {
      ghost var before := Durable();
      FinalizeAllowed(cfg, {}, before);
      FinalizeTail(cfg, before);
      ToFinal();
      Stopped(before, Finalize(cfg, before));
      if CanFinish(cfg) {
        EmptyPlanIsComplete(cfg, {}, before);
        FinalizeStops(cfg, before);
      }
    }

    /** Writes that only touch the status leave the driver's footing and its budget as they were. */
    lemma Stopped(sys: Sys, ws: seq<Write>)
      requires Ok(cfg, {}, sys) && sys.journal != [] && RetryOk(cfg, sys.State())
      requires AllowsAll(cfg, {}, sys, ws) && forall w :: w in ws ==> Tail(w)
      ensures var next := ApplyAll(sys, ws);
        && Ok(cfg, {}, next) && next.journal != [] && RetryOk(cfg, next.State())
        && Budget(cfg, next.State()) == Budget(cfg, sys.State())
    {
      InvAfter(cfg, {}, sys, ws);
      JournalGrows(sys, ws);
      TailKeepsTurns(sys, ws);
      assert forall w :: Tail(w) ==> Plain(w);
      PlainList(cfg, {}, sys, ws);
      SameBudget(cfg, sys.State(), ApplyAll(sys, ws).State());
    }
  }
}
