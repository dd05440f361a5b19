/** Every verb makes only allowed writes, so a crash inside any verb leaves the invariant in place
    (src/mootloop/orchestrator.py:235-1368, src/mootloop/decisions.py:224-384). */
module EngineVerbs {
  import opened Wrappers
  import opened Layout
  import opened Stages
  import opened Journal
  import opened Decisions
  import opened Engine
  import opened EngineSafety
  import Planner

  type Calls = set<(string, string)>

  /** A call of `good` always carries a result its turn accepts. */
  ghost predicate GoodCall(cfg: Config, good: Calls, id: string, ans: Answer) {
    ans.call.Some? && (id, ans.call.value) in good ==>
      forall i: nat, s: Slot :: SlotNamed(cfg, id, i, s) ==> Accepts(ans, Planner.SchemaOf(cfg.graph, s))
  }

  ghost predicate Ok(cfg: Config, good: Calls, sys: Sys) {
    cfg.graph.caps.Valid() && Inv(cfg, good, sys)
  }

  // --- writes that only inform -------------------------------------------------------------------------------

  predicate Informs(w: Write) {
    match w
    case J(e) => e.GateEvaluated? || e.StageStarted? || e.SpendRecorded?
    case _ => true
  }

  /** What informing writes leave alone. */
  predicate SameCourse(a: RunState, b: RunState) {
    && a.completed == b.completed && a.status == b.status && a.discarded == b.discarded
    && a.granted == b.granted && a.mode == b.mode && a.cleared == b.cleared
  }

  lemma {:induction false} InformsOnly(sys: Sys, ws: seq<Write>)
    requires forall w :: w in ws ==> Informs(w)
    ensures SameCourse(sys.State(), ApplyAll(sys, ws).State())
    ensures sys.journal <= ApplyAll(sys, ws).journal
    decreases |ws|
  {
    if ws != [] {
      assert Informs(ws[0]);
      StateAfter(sys, ws[0]);
      InformsOnly(ApplyWrite(sys, ws[0]), ws[1..]);
    }
  }

  lemma {:induction false} EventsLeaveStores(sys: Sys, ws: seq<Write>)
    requires forall w :: w in ws ==> w.J?
    ensures ApplyAll(sys, ws).bodies == sys.bodies && ApplyAll(sys, ws).log == sys.log
    ensures sys.journal <= ApplyAll(sys, ws).journal
    decreases |ws|
  {
    if ws != [] {
      EventsLeaveStores(ApplyWrite(sys, ws[0]), ws[1..]);
    }
  }

  predicate Notes(w: Write) {
    w.J? && (w.event.GateEvaluated? || w.event.StageStarted?)
  }

  lemma {:induction false} NotesAllowed(cfg: Config, good: Calls, sys: Sys, ws: seq<Write>)
    requires sys.journal != [] && forall w :: w in ws ==> Notes(w)
    ensures AllowsAll(cfg, good, sys, ws)
    decreases |ws|
  {
    if ws != [] {
      assert Notes(ws[0]);
      NotesAllowed(cfg, good, ApplyWrite(sys, ws[0]), ws[1..]);
    }
  }

  lemma OneAllowed(cfg: Config, good: Calls, sys: Sys, w: Write)
    requires Allows(cfg, good, sys, w)
    ensures AllowsAll(cfg, good, sys, [w]) && ApplyAll(sys, [w]) == ApplyWrite(sys, w)
  {
    assert AllowsAll(cfg, good, ApplyWrite(sys, w), []);
  }

  // --- derivation ------------------------------------------------------------------------------------------

  lemma AllowsCons(cfg: Config, good: Calls, sys: Sys, w: Write, ws: seq<Write>)
    requires Allows(cfg, good, sys, w) && AllowsAll(cfg, good, ApplyWrite(sys, w), ws)
    ensures AllowsAll(cfg, good, sys, [w] + ws) && ApplyAll(sys, [w] + ws) == ApplyAll(ApplyWrite(sys, w), ws)
  {
    assert ([w] + ws)[1..] == ws;
  }

  ghost predicate AllImplied(cfg: Config, sys: Sys, ps: seq<Proposal>) {
    forall p :: p in ps ==> Implied(cfg, sys, p)
  }

  lemma AppendAllowed(cfg: Config, good: Calls, sys: Sys, ps: seq<Proposal>)
    requires sys.journal != [] && LogOk(sys.log) && ps != [] && AllImplied(cfg, sys, ps)
    requires ps[0].Key() !in Keys(sys.log)
    ensures var d := Decision(Count(sys.log), ps[0], Open, None);
      && Allows(cfg, good, sys, D(d)) && LogOk(sys.log + [d])
      && AllImplied(cfg, ApplyWrite(sys, D(d)), ps[1..])
  {
    var d := Decision(Count(sys.log), ps[0], Open, None);
    LogOkAppend(sys.log, d);
    forall p | p in ps[1..]
      ensures Implied(cfg, ApplyWrite(sys, D(d)), p)
    {
      assert Implied(cfg, sys, p);
    }
  }

  lemma {:induction false} DeriveAllowed(cfg: Config, good: Calls, sys: Sys, ps: seq<Proposal>)
    requires sys.journal != [] && LogOk(sys.log) && AllImplied(cfg, sys, ps)
    ensures AllowsAll(cfg, good, sys, DeriveWrites(sys.log, ps))
    ensures ApplyAll(sys, DeriveWrites(sys.log, ps)) == sys.(log := Derive(sys.log, ps))
    decreases |ps|
  {
    if ps != [] {
      if ps[0].Key() in Keys(sys.log) {
        DeriveAllowed(cfg, good, sys, ps[1..]);
      } else {
        AppendAllowed(cfg, good, sys, ps);
        var d := Decision(Count(sys.log), ps[0], Open, None);
        DeriveAllowed(cfg, good, ApplyWrite(sys, D(d)), ps[1..]);
        AllowsCons(cfg, good, sys, D(d), DeriveWrites(sys.log + [d], ps[1..]));
      }
    }
  }

  // --- spend, cap, finalization, checkpoints ------------------------------------------------------------------------

  lemma SpendAllowed(cfg: Config, good: Calls, sys: Sys, id: string, ans: Answer, dedupe: bool)
    requires sys.journal != []
    requires dedupe || (ans.call.Some? ==> (id, ans.call.value) !in good)
    ensures AllowsAll(cfg, good, sys, BookSpend(sys, id, ans, dedupe))
  {
    var ws := BookSpend(sys, id, ans, dedupe);
    if ws != [] {
      OneAllowed(cfg, good, sys, ws[0]);
    }
  }

  lemma CapAllowed(cfg: Config, good: Calls, sys: Sys)
    requires sys.journal != []
    ensures AllowsAll(cfg, good, sys, CapTransition(sys))
  {
    var ws := CapTransition(sys);
    if ws != [] {
      OneAllowed(cfg, good, sys, ws[0]);
    }
  }

  lemma {:induction false} OneRecordPerId(journal: seq<Event>, r: TurnRecord)
    requires TurnCompleted(r) in journal && Completions(journal, r.turnId) <= 1
    ensures r.turnId in Fold(journal).completed && Fold(journal).completed[r.turnId] == r
  {
    var front, e := journal[..|journal| - 1], journal[|journal| - 1];
    if e != TurnCompleted(r) {
      OneRecordPerId(front, r);
      CompletedIffCompletion(front, r.turnId);
    }
  }

  lemma {:induction false} ProposalsCompleted(cfg: Config, journal: seq<Event>, p: Proposal) returns (r: TurnRecord)
    requires p in AllProposals(cfg, journal)
    ensures TurnCompleted(r) in journal && p in ProposalsOf(cfg, r)
  {
    var front, e := journal[..|journal| - 1], journal[|journal| - 1];
    if p in AllProposals(cfg, front) {
      r := ProposalsCompleted(cfg, front, p);
    } else {
      r := e.record;
    }
  }

  lemma CompletedImply(cfg: Config, sys: Sys)
    requires CompletedOnce(sys)
    ensures AllImplied(cfg, sys, AllProposals(cfg, sys.journal))
  {
    forall p | p in AllProposals(cfg, sys.journal)
      ensures Implied(cfg, sys, p)
    {
      var r := ProposalsCompleted(cfg, sys.journal, p);
      OneRecordPerId(sys.journal, r);
      assert p in ProposalsOf(cfg, sys.State().completed[r.turnId]);
    }
  }

  lemma FinalizeAllowed(cfg: Config, good: Calls, sys: Sys)
    requires Ok(cfg, good, sys) && sys.journal != []
    ensures AllowsAll(cfg, good, sys, Finalize(cfg, sys))
  {
    var s := sys.State();
    if (s.status == Running || s.status == NeedsDecisions) && AllComplete(cfg, s.completed) {
      var ps := AllProposals(cfg, sys.journal);
      var derived := DeriveWrites(sys.log, ps);
      CompletedImply(cfg, sys);
      DeriveAllowed(cfg, good, sys, ps);
      var after := ApplyAll(sys, derived);
      DeriveKeys(sys.log, ps);
      GatesMore(cfg, s.completed, Keys(sys.log), Keys(after.log));
      var gates := RubricGates(cfg, after, Records(sys.journal));
      RubricsAllowed(cfg, good, after, Records(sys.journal));
      var ending := Ending(cfg, s.status, after.log);
      EndingAllowed(cfg, good, ApplyAll(after, gates), ending);
      AllowsConcat(cfg, good, sys, derived, gates);
      AllowsConcat(cfg, good, sys, derived + gates, ending);
    }
  }

  lemma RubricIsNote(cfg: Config, sys: Sys, r: TurnRecord)
    ensures |RubricGateWrites(cfg, sys, r)| <= 1 && forall w :: w in RubricGateWrites(cfg, sys, r) ==> Notes(w)
  {
  }

  lemma {:induction false} RubricsAreNotes(cfg: Config, sys: Sys, records: seq<TurnRecord>)
    ensures forall w :: w in RubricGates(cfg, sys, records) ==> Notes(w)
  {
    if records != [] {
      var front := records[..|records| - 1];
      RubricsAreNotes(cfg, sys, front);
      RubricIsNote(cfg, ApplyAll(sys, RubricGates(cfg, sys, front)), records[|records| - 1]);
    }
  }

  /** Recording rubric panels only informs. */
  lemma RubricsAllowed(cfg: Config, good: Calls, sys: Sys, records: seq<TurnRecord>)
    requires sys.journal != []
    ensures var ws := RubricGates(cfg, sys, records);
      && AllowsAll(cfg, good, sys, ws) && SameCourse(sys.State(), ApplyAll(sys, ws).State())
      && ApplyAll(sys, ws).log == sys.log && ApplyAll(sys, ws).bodies == sys.bodies
      && ApplyAll(sys, ws).journal != []
  {
    var ws := RubricGates(cfg, sys, records);
    RubricsAreNotes(cfg, sys, records);
    NotesAllowed(cfg, good, sys, ws);
    InformsOnly(sys, ws);
    EventsLeaveStores(sys, ws);
  }

  lemma EndingAllowed(cfg: Config, good: Calls, sys: Sys, ending: seq<Write>)
    requires sys.journal != [] && AllComplete(cfg, sys.State().completed) && GatesKnown(cfg, sys)
    requires sys.State().status == Running || sys.State().status == NeedsDecisions
    requires ending == Ending(cfg, sys.State().status, sys.log)
    ensures AllowsAll(cfg, good, sys, ending)
  {
    if ending != [] {
      OneAllowed(cfg, good, sys, ending[0]);
    }
  }

  lemma CheckpointAllowed(cfg: Config, good: Calls, sys: Sys)
    requires sys.journal != []
    ensures AllowsAll(cfg, good, sys, MaybeCheckpoint(cfg, sys))
  {
    var ws := MaybeCheckpoint(cfg, sys);
    if ws != [] {
      OneAllowed(cfg, good, sys, ws[0]);
    }
  }

  lemma InvAfter(cfg: Config, good: Calls, sys: Sys, ws: seq<Write>)
    requires Ok(cfg, good, sys) && AllowsAll(cfg, good, sys, ws)
    ensures Ok(cfg, good, ApplyAll(sys, ws))
  {
    assert ws[..|ws|] == ws;
    InvAfterCrash(cfg, good, sys, ws, |ws|);
  }

  lemma {:induction false} JournalGrows(sys: Sys, ws: seq<Write>)
    ensures sys.journal <= ApplyAll(sys, ws).journal
    decreases |ws|
  {
    if ws != [] {
      JournalGrows(ApplyWrite(sys, ws[0]), ws[1..]);
    }
  }

  lemma AftermathAllowed(cfg: Config, good: Calls, sys: Sys, rec: TurnRecord)
    requires Ok(cfg, good, sys) && sys.journal != []
    ensures AllowsAll(cfg, good, sys, Aftermath(cfg, sys, rec))
  {
    var rubric := RubricGateWrites(cfg, sys, rec);
    RubricIsNote(cfg, sys, rec);
    NotesAllowed(cfg, good, sys, rubric);
    InvAfter(cfg, good, sys, rubric);
    JournalGrows(sys, rubric);
    OnwardAllowed(cfg, good, ApplyAll(sys, rubric));
    AllowsConcat(cfg, good, sys, rubric, Onward(cfg, ApplyAll(sys, rubric)));
  }

  lemma OnwardAllowed(cfg: Config, good: Calls, sys: Sys)
    requires Ok(cfg, good, sys) && sys.journal != []
    ensures AllowsAll(cfg, good, sys, Onward(cfg, sys))
  {
    if OverCap(cfg, sys.State()) {
      CapAllowed(cfg, good, sys);
    } else {
      var done := Finalize(cfg, sys);
      FinalizeAllowed(cfg, good, sys);
      JournalGrows(sys, done);
      CheckpointAllowed(cfg, good, ApplyAll(sys, done));
      AllowsConcat(cfg, good, sys, done, MaybeCheckpoint(cfg, ApplyAll(sys, done)));
    }
  }

  // --- recording a turn ------------------------------------------------------------------------------------------

  lemma DiscardAllowed(cfg: Config, good: Calls, sys: Sys, id: string, ans: Answer)
    requires sys.journal != [] && sys.State().status == Running
    requires ans.call.Some? ==> (id, ans.call.value) !in good
    ensures AllowsAll(cfg, good, sys, Discard(cfg, sys, id, ans))
  {
    var spend := BookSpend(sys, id, ans, false);
    SpendAllowed(cfg, good, sys, id, ans, false);
    InformsOnly(sys, spend);
    var sys1 := ApplyAll(sys, spend);
    var w := J(TurnDiscarded(id, Attempts(sys.State(), id) + 1, "rejected"));
    OneAllowed(cfg, good, sys1, w);
    AllowsConcat(cfg, good, sys, spend, [w]);
    var rest := Discard(cfg, sys, id, ans)[|spend| + 1..];
    assert Discard(cfg, sys, id, ans) == (spend + [w]) + rest;
    if rest != [] {
      OneAllowed(cfg, good, ApplyWrite(sys1, w), rest[0]);
    }
    AllowsConcat(cfg, good, sys, spend + [w], rest);
  }

  /** The state in which a completing call writes its body. */
  ghost predicate Completing(cfg: Config, good: Calls, sys: Sys, t: Turn, rec: TurnRecord, ans: Answer) {
    && Ok(cfg, good, sys) && sys.journal != [] && sys.State().status == Running
    && CompletesPlanned(cfg, sys, rec, t)
    && (rec.turnId in sys.bodies ==> sys.bodies[rec.turnId] == rec)
  }

  lemma BodyAllowed(cfg: Config, good: Calls, sys: Sys, t: Turn, rec: TurnRecord, ans: Answer)
    requires Completing(cfg, good, sys, t, rec, ans)
    ensures var body := if rec.turnId in sys.bodies then [] else [B(rec)];
      && AllowsAll(cfg, good, sys, body)
      && ApplyAll(sys, body) == sys.(bodies := sys.bodies[rec.turnId := rec])
  {
    if rec.turnId in sys.bodies {
      assert sys.bodies[rec.turnId := rec] == sys.bodies;
    } else {
      OneAllowed(cfg, good, sys, B(rec));
    }
  }

  lemma GatesAllowed(cfg: Config, good: Calls, sys: Sys, t: Turn, rec: TurnRecord, ans: Answer)
    requires Completing(cfg, good, sys, t, rec, ans)
    ensures AllowsAll(cfg, good, sys, DeriveWrites(sys.log, ProposalsOf(cfg, rec)))
    ensures ApplyAll(sys, DeriveWrites(sys.log, ProposalsOf(cfg, rec)))
         == sys.(log := Derive(sys.log, ProposalsOf(cfg, rec)))
    ensures ProposalKeys(ProposalsOf(cfg, rec)) <= Keys(Derive(sys.log, ProposalsOf(cfg, rec)))
  {
    PlannedIsNew(cfg, sys.State().completed, t);
    assert Live(cfg, sys);
    DeriveAllowed(cfg, good, sys, ProposalsOf(cfg, rec));
    DeriveKeys(sys.log, ProposalsOf(cfg, rec));
  }

  /** What a completion leaves: the body, the gates, the spend and the completed turn. */
  function AfterCompletion(cfg: Config, sys: Sys, rec: TurnRecord, ans: Answer): Sys {
    Sys(sys.journal + Events(BookSpend(sys, rec.turnId, ans, ans.call.Some?)) + [TurnCompleted(rec)],
        sys.bodies[rec.turnId := rec],
        Derive(sys.log, ProposalsOf(cfg, rec)))
  }

  function Events(ws: seq<Write>): seq<Event> {
    if ws == [] then [] else Events(ws[..|ws| - 1]) + if ws[|ws| - 1].J? then [ws[|ws| - 1].event] else []
  }

  lemma CompletionAllowed(cfg: Config, good: Calls, sys: Sys, t: Turn, rec: TurnRecord, ans: Answer)
    requires Completing(cfg, good, sys, t, rec, ans)
    ensures AllowsAll(cfg, good, sys, Completion(cfg, sys, rec, ans))
    ensures ApplyAll(sys, Completion(cfg, sys, rec, ans)) == AfterCompletion(cfg, sys, rec, ans)
  {
    hide Inv, AllowsAll, ApplyAll, DeriveWrites, Derive, Booked, Events, PlannedTurn, Names, Conforms, ProposalsOf;
    var body := if rec.turnId in sys.bodies then [] else [B(rec)];
    BodyAllowed(cfg, good, sys, t, rec, ans);
    var sys1 := sys.(bodies := sys.bodies[rec.turnId := rec]);
    InvAfter(cfg, good, sys, body);
    var gates := DeriveWrites(sys.log, ProposalsOf(cfg, rec));
    GatesAllowed(cfg, good, sys1, t, rec, ans);
    AllowsConcat(cfg, good, sys, body, gates);
    var sys2 := sys1.(log := Derive(sys.log, ProposalsOf(cfg, rec)));
    var spend := BookSpend(sys, rec.turnId, ans, ans.call.Some?);
    CompletingIsNew(cfg, good, sys, t, rec, ans);
    FinishCompletion(cfg, good, sys2, t, rec, ans);
    AllowsConcat(cfg, good, sys, body + gates, spend + [J(TurnCompleted(rec))]);
    assert Completion(cfg, sys, rec, ans) == (body + gates) + (spend + [J(TurnCompleted(rec))]);
  }

  lemma CompletingIsNew(cfg: Config, good: Calls, sys: Sys, t: Turn, rec: TurnRecord, ans: Answer)
    requires Completing(cfg, good, sys, t, rec, ans)
    ensures rec.turnId !in sys.State().completed
  {
    PlannedIsNew(cfg, sys.State().completed, t);
  }

  lemma FinishCompletion(cfg: Config, good: Calls, sys: Sys, t: Turn, rec: TurnRecord, ans: Answer)
    requires sys.journal != [] && sys.State().status == Running && CompletesPlanned(cfg, sys, rec, t)
    requires rec.turnId in sys.bodies && sys.bodies[rec.turnId] == rec
    requires ProposalKeys(ProposalsOf(cfg, rec)) <= Keys(sys.log)
    requires rec.turnId !in sys.State().completed
    ensures var spend := BookSpend(sys, rec.turnId, ans, ans.call.Some?);
      && AllowsAll(cfg, good, sys, spend + [J(TurnCompleted(rec))])
      && ApplyAll(sys, spend + [J(TurnCompleted(rec))])
         == sys.(journal := sys.journal + Events(spend) + [TurnCompleted(rec)])
  {
    var spend := BookSpend(sys, rec.turnId, ans, ans.call.Some?);
    SpendAllowed(cfg, good, sys, rec.turnId, ans, ans.call.Some?);
    InformsOnly(sys, spend);
    EventsLeaveStores(sys, spend);
    var sys1 := ApplyAll(sys, spend);
    hide PlannedTurn, Names, Conforms, ProposalsOf, BookSpend;
    assert CompletesPlanned(cfg, sys1, rec, t);
    OneAllowed(cfg, good, sys1, J(TurnCompleted(rec)));
    hide Fold, AllowsAll;
    AllowsConcat(cfg, good, sys, spend, [J(TurnCompleted(rec))]);
    assert sys1.journal == sys.journal + Events(spend);
  }

  lemma BadCall(cfg: Config, good: Calls, sys: Sys, t: Turn, ans: Answer)
    requires cfg.graph.caps.Valid() && PlannedTurn(cfg, sys.State().completed, t) && cfg.Z().Has(t.spec.slot)
    requires GoodCall(cfg, good, cfg.Id(t.index, t.spec.slot), ans) && !Accepts(ans, t.spec.schema)
    ensures ans.call.Some? ==> (cfg.Id(t.index, t.spec.slot), ans.call.value) !in good
  {
    PlannedIsNew(cfg, sys.State().completed, t);
    assert SlotNamed(cfg, cfg.Id(t.index, t.spec.slot), t.index, t.spec.slot);
  }

  lemma PreludeAllowed(cfg: Config, good: Calls, sys: Sys, t: Turn, id: string, ans: Answer)
    requires Ok(cfg, good, sys) && sys.journal != []
    ensures AllowsAll(cfg, good, sys, Prelude(sys, t, id, ans))
    ensures var sys1 := ApplyAll(sys, Prelude(sys, t, id, ans));
      && Ok(cfg, good, sys1) && sys1.journal != [] && SameCourse(sys.State(), sys1.State())
      && sys1.bodies == sys.bodies && sys1.log == sys.log
  {
    var prelude := Prelude(sys, t, id, ans);
    NotesAllowed(cfg, good, sys, prelude);
    InvAfter(cfg, good, sys, prelude);
    InformsOnly(sys, prelude);
    EventsLeaveStores(sys, prelude);
  }

  /** What recording an accepted result writes. */
  lemma SpecWrites(cfg: Config, sys: Sys, t: Turn, ans: Answer, now: string, sys1: Sys, rec: TurnRecord)
    requires cfg.Z().Has(t.spec.slot) && t.index < |cfg.units| && Accepts(ans, t.spec.schema)
    requires sys1 == ApplyAll(sys, Prelude(sys, t, cfg.Id(t.index, t.spec.slot), ans)) && sys1.bodies == sys.bodies
    requires SettleBody(sys.bodies, RecordOf(cfg, sys.State(), t, ans, now)) == Some(rec)
    ensures RecordSpec(cfg, sys, t, ans, now)
         == Ran(Prelude(sys, t, cfg.Id(t.index, t.spec.slot), ans) + Completion(cfg, sys1, rec, ans)
                + Aftermath(cfg, ApplyAll(sys1, Completion(cfg, sys1, rec, ans)), rec),
                Raised(cfg, ApplyAll(sys1, Completion(cfg, sys1, rec, ans)), rec))
  {
    hide Prelude, Completion, Aftermath, Raised, RecordOf, SettleBody;
  }

  lemma RecordSpecAllowed(cfg: Config, good: Calls, sys: Sys, t: Turn, ans: Answer, now: string)
    requires Ok(cfg, good, sys) && sys.journal != [] && sys.State().status == Running
    requires PlannedTurn(cfg, sys.State().completed, t) && cfg.Z().Has(t.spec.slot)
    requires GoodCall(cfg, good, cfg.Id(t.index, t.spec.slot), ans)
    ensures AllowsAll(cfg, good, sys, RecordSpec(cfg, sys, t, ans, now).writes)
  {
    hide Inv, Completion, Aftermath, Raised, Discard, GateWrites;
    var id := cfg.Id(t.index, t.spec.slot);
    if ans.output.None? || !Conforms(ans.output.value, t.spec.schema) {
      BadCall(cfg, good, sys, t, ans);
      DiscardAllowed(cfg, good, sys, id, ans);
    } else if ans.halted {
      BadCall(cfg, good, sys, t, ans);
      var gates := GateWrites(id, ans.gates);
      NotesAllowed(cfg, good, sys, gates);
      InformsOnly(sys, gates);
      DiscardAllowed(cfg, good, ApplyAll(sys, gates), id, ans);
      AllowsConcat(cfg, good, sys, gates, Discard(cfg, ApplyAll(sys, gates), id, ans));
    } else {
      var prelude := Prelude(sys, t, id, ans);
      PreludeAllowed(cfg, good, sys, t, id, ans);
      var sys1 := ApplyAll(sys, prelude);
      var rec := SettleBody(sys1.bodies, RecordOf(cfg, sys.State(), t, ans, now));
      if rec.Some? {
        assert Completing(cfg, good, sys1, t, rec.value, ans);
        var completion := Completion(cfg, sys1, rec.value, ans);
        CompletionAllowed(cfg, good, sys1, t, rec.value, ans);
        InvAfter(cfg, good, sys1, completion);
        AftermathAllowed(cfg, good, ApplyAll(sys1, completion), rec.value);
        AllowsConcat(cfg, good, sys, prelude, completion);
        AllowsConcat(cfg, good, sys, prelude + completion, Aftermath(cfg, ApplyAll(sys1, completion), rec.value));
      }
    }
  }

  /** A turn found in the plan is planned for its request. */
  lemma FoundIsPlanned(cfg: Config, s: RunState, id: string)
    requires s.status == Running && Plan(cfg, s).Success?
    ensures var t := Find(cfg, Plan(cfg, s).value, id);
      t.Some? ==> PlannedTurn(cfg, s.completed, t.value) && Names(cfg, t.value, id)
  {
    PlanUnitsMembers(cfg, s.completed, |cfg.units|);
  }

  lemma RecordAgainAllowed(cfg: Config, good: Calls, sys: Sys, id: string, ans: Answer)
    requires Ok(cfg, good, sys) && sys.journal != []
    ensures var spend := BookSpend(sys, id, ans, true);
      AllowsAll(cfg, good, sys, spend + Finalize(cfg, ApplyAll(sys, spend)))
  {
    var spend := BookSpend(sys, id, ans, true);
    SpendAllowed(cfg, good, sys, id, ans, true);
    InvAfter(cfg, good, sys, spend);
    JournalGrows(sys, spend);
    FinalizeAllowed(cfg, good, ApplyAll(sys, spend));
    AllowsConcat(cfg, good, sys, spend, Finalize(cfg, ApplyAll(sys, spend)));
  }

  lemma RecordTurnAllowed(cfg: Config, good: Calls, sys: Sys, id: string, ans: Answer, now: string)
    requires Ok(cfg, good, sys) && GoodCall(cfg, good, id, ans)
    ensures AllowsAll(cfg, good, sys, RecordTurn(cfg, sys, id, ans, now).writes)
  {
    hide Inv, RecordSpec, Finalize, BookSpend, Fold, PlanUnits;
    var s := sys.State();
    if sys.journal == [] || (id !in s.completed && (Plan(cfg, s).Failure? || s.status != Running)) {
      assert RecordTurn(cfg, sys, id, ans, now).writes == [];
    } else if id in s.completed {
      RecordAgainAllowed(cfg, good, sys, id, ans);
    } else {
      FoundIsPlanned(cfg, s, id);
      var t := Find(cfg, Plan(cfg, s).value, id);
      if t.Some? {
        RecordSpecAllowed(cfg, good, sys, t.value, ans, now);
      }
    }
  }

  // --- the other verbs --------------------------------------------------------------------------------------------

  lemma StartAllowed(cfg: Config, good: Calls, sys: Sys, same: bool)
    requires Ok(cfg, good, sys)
    ensures AllowsAll(cfg, good, sys, Start(cfg, sys, same).writes)
  {
    if sys.journal == [] {
      var w := J(RunStarted(cfg.task, cfg.mode));
      OneAllowed(cfg, good, sys, w);
      InvAfter(cfg, good, sys, [w]);
      FinalizeAllowed(cfg, good, ApplyWrite(sys, w));
      AllowsConcat(cfg, good, sys, [w], Finalize(cfg, ApplyWrite(sys, w)));
    }
  }

  lemma AfterResolutionAllowed(cfg: Config, good: Calls, sys: Sys, d: Decision)
    requires Ok(cfg, good, sys) && sys.journal != []
    requires Latest(sys.log, d.id) == Some(d) && d.status != Open && d.resolution.Some?
    ensures AllowsAll(cfg, good, sys, AfterResolution(cfg, sys, d).writes)
    ensures AfterResolution(cfg, sys, d).error.None?
  {
    assert LastRecorded(sys.journal, d.id).Some? ==> Recorded(sys, d.id);
    var recorded := RecordResolution(sys.journal, d.id, d.resolution.value);
    if recorded.writes != [] {
      OneAllowed(cfg, good, sys, recorded.writes[0]);
    }
    InvAfter(cfg, good, sys, recorded.writes);
    JournalGrows(sys, recorded.writes);
    FinalizeAllowed(cfg, good, ApplyAll(sys, recorded.writes));
    AllowsConcat(cfg, good, sys, recorded.writes, Finalize(cfg, ApplyAll(sys, recorded.writes)));
  }

  lemma ResolvedHasResolution(log: Log, id: nat)
    requires LogOk(log)
    ensures var d := Latest(log, id); d.Some? && d.value.status != Open ==> d.value.resolution.Some?
  {
    if log != [] && log[|log| - 1].id != id {
      ResolvedHasResolution(log[..|log| - 1], id);
    }
  }

  lemma ResolveAllowed(cfg: Config, good: Calls, sys: Sys, id: nat, r: Resolution)
    requires Ok(cfg, good, sys)
    ensures AllowsAll(cfg, good, sys, Resolve(cfg, sys, id, r).writes)
    ensures sys.journal != [] && !PlanResolve(sys.log, id, r).Refused? ==> Resolve(cfg, sys, id, r).error.None?
  {
    assert LogOk(sys.log);
    hide Inv, AfterResolution, Finalize;
    if sys.journal != [] {
      LatestMember(sys.log, id);
      ResolvedHasResolution(sys.log, id);
      var plan := PlanResolve(sys.log, id, r);
      if plan.Retry? {
        AfterResolutionAllowed(cfg, good, sys, plan.stored);
      } else if plan.Fresh? {
        var d := plan.record;
        ResolveOnce(sys.log, id, r, r);
        LogOkAppend(sys.log, d);
        OneAllowed(cfg, good, sys, D(d));
        InvAfter(cfg, good, sys, [D(d)]);
        AfterResolutionAllowed(cfg, good, ApplyWrite(sys, D(d)), d);
        AllowsConcat(cfg, good, sys, [D(d)], AfterResolution(cfg, ApplyWrite(sys, D(d)), d).writes);
      }
    }
  }

  // --- citation checks ---------------------------------------------------------------------------------------

  lemma ReserveAllowed(cfg: Config, good: Calls, sys: Sys, id: string, usd: real)
    requires Ok(cfg, good, sys) && sys.journal != []
    ensures var ws := ReserveWrites(sys, id, usd);
      var next := ApplyAll(sys, ws);
      && AllowsAll(cfg, good, sys, ws) && Ok(cfg, good, next) && next.journal != []
      && SameCourse(sys.State(), next.State()) && next.bodies == sys.bodies && next.log == sys.log
  {
    var ws := ReserveWrites(sys, id, usd);
    if ws != [] {
      StateAfter(sys, ws[0]);
      OneAllowed(cfg, good, sys, ws[0]);
    }
    InvAfter(cfg, good, sys, ws);
  }

  /** Body, spend and completion of a check: each allowed in turn, in any status. */
  lemma CheckCompletionAllowed(cfg: Config, good: Calls, sys: Sys, rec: TurnRecord, ans: Answer)
    requires Ok(cfg, good, sys) && sys.journal != [] && IsCheckTurn(cfg, rec) && rec.turnId !in sys.State().completed
    requires rec.turnId in sys.bodies ==> sys.bodies[rec.turnId] == rec
    ensures AllowsAll(cfg, good, sys, CheckCompletion(sys, rec, ans))
    ensures var next := ApplyAll(sys, CheckCompletion(sys, rec, ans));
      && next.State().completed == sys.State().completed[rec.turnId := rec] && next.log == sys.log
      && next.bodies == sys.bodies[rec.turnId := rec]
  {
    var body := if rec.turnId in sys.bodies then [] else [B(rec)];
    if rec.turnId in sys.bodies {
      assert sys.bodies[rec.turnId := rec] == sys.bodies;
    } else {
      OneAllowed(cfg, good, sys, B(rec));
    }
    var sys1 := ApplyAll(sys, body);
    var spend := BookSpend(sys, rec.turnId, ans, true);
    SpendAllowed(cfg, good, sys1, rec.turnId, ans, true);
    InformsOnly(sys1, spend);
    EventsLeaveStores(sys1, spend);
    var sys2 := ApplyAll(sys1, spend);
    var done := J(TurnCompleted(rec));
    OneAllowed(cfg, good, sys2, done);
    StateAfter(sys2, done);
    hide Inv;
    AllowsConcat(cfg, good, sys, body, spend);
    AllowsConcat(cfg, good, sys, body + spend, [done]);
  }

  lemma CheckAllowed(cfg: Config, good: Calls, sys: Sys, c: CheckCall)
    requires Ok(cfg, good, sys) && sys.journal != []
    ensures var ws := CheckOne(cfg, sys, c).writes;
      AllowsAll(cfg, good, sys, ws) && Ok(cfg, good, ApplyAll(sys, ws)) && ApplyAll(sys, ws).journal != []
  {
    var id := CheckId(cfg, c.proposition);
    if (id !in sys.State().completed || c.late) && !OverCap(cfg, sys.State()) {
      var reserve := ReserveWrites(sys, id, c.maxUsd);
      ReserveAllowed(cfg, good, sys, id, c.maxUsd);
      var sys1 := ApplyAll(sys, reserve);
      if Accepts(c.ans, CiteCheckSchema) && id !in sys.State().completed
         && SettleBody(sys1.bodies, CheckRecord(cfg, c)).Some? {
        var rec := SettleBody(sys1.bodies, CheckRecord(cfg, c)).value;
        CheckCompletionAllowed(cfg, good, sys1, rec, c.ans);
        AllowsConcat(cfg, good, sys, reserve, CheckCompletion(sys1, rec, c.ans));
      }
    }
    InvAfter(cfg, good, sys, CheckOne(cfg, sys, c).writes);
    JournalGrows(sys, CheckOne(cfg, sys, c).writes);
  }

  lemma {:induction false} CheckEachAllowed(cfg: Config, good: Calls, sys: Sys, calls: seq<CheckCall>)
    requires Ok(cfg, good, sys) && sys.journal != []
    ensures AllowsAll(cfg, good, sys, CheckEach(cfg, sys, calls).writes)
    ensures ApplyAll(sys, CheckEach(cfg, sys, calls).writes).journal != []
    decreases |calls|
  {
    if calls != [] {
      CheckAllowed(cfg, good, sys, calls[0]);
      var first := CheckOne(cfg, sys, calls[0]);
      if first.error.None? {
        var next := ApplyAll(sys, first.writes);
        CheckEachAllowed(cfg, good, next, calls[1..]);
        hide Inv, CheckOne;
        AllowsConcat(cfg, good, sys, first.writes, CheckEach(cfg, next, calls[1..]).writes);
      }
    }
  }

  lemma CheckCitationsAllowed(cfg: Config, good: Calls, sys: Sys, calls: seq<CheckCall>, digest: string,
                              support: GateStatus, citation: GateStatus)
    requires Ok(cfg, good, sys)
    ensures AllowsAll(cfg, good, sys, CheckCitations(cfg, sys, calls, digest, support, citation).writes)
  {
    var ran := CheckCitations(cfg, sys, calls, digest, support, citation);
    if sys.journal != [] && (sys.State().status == Finished || sys.State().status == NeedsDecisions) {
      CheckEachAllowed(cfg, good, sys, calls);
      var each := CheckEach(cfg, sys, calls).writes;
      if ran.error.None? {
        NotesAllowed(cfg, good, ApplyAll(sys, each), ran.writes[|each|..]);
        AllowsConcat(cfg, good, sys, each, ran.writes[|each|..]);
        assert ran.writes == each + ran.writes[|each|..];
      }
    }
  }
}
