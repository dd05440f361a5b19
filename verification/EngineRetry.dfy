/** Retry budgets, the end of every drive, and replay of a call that died part-way
    (src/mootloop/orchestrator.py:964-1005, 1282-1368, src/mootloop/provider_driver.py:115-173). */
module EngineRetry {
  import opened Wrappers
  import opened Stages
  import opened Journal
  import opened Decisions
  import opened Engine
  import opened EngineSafety
  import opened EngineVerbs
  import opened EngineRuns

  /** Outside needs_attention, every uncompleted turn has retries left. */
  predicate RetryOk(cfg: Config, s: RunState) {
    s.status != NeedsAttention ==> !Blocked(s, Ceiling(cfg, s))
  }

  // --- writes that neither discard nor reopen -------------------------------------------------------------

  predicate Plain(w: Write) {
    w.J? ==> !w.event.TurnDiscarded? && !w.event.RunReopened?
  }

  lemma BlockedLess(s: RunState, next: RunState, ceiling: nat)
    requires next.discarded == s.discarded && s.completed.Keys <= next.completed.Keys
    ensures Blocked(next, ceiling) ==> Blocked(s, ceiling)
  {
    if Blocked(next, ceiling) {
      var id :| id in next.discarded && Blocks(next, id, ceiling);
      assert Blocks(s, id, ceiling);
    }
  }

  lemma PlainEvent(cfg: Config, s: RunState, e: Event)
    requires StatusAllows(s, e) && !e.TurnDiscarded? && !e.RunReopened? && RetryOk(cfg, s)
    ensures RetryOk(cfg, Apply(s, e))
  {
    BlockedLess(s, Apply(s, e), Ceiling(cfg, s));
  }

  lemma PlainStep(cfg: Config, good: Calls, sys: Sys, w: Write)
    requires Allows(cfg, good, sys, w) && Plain(w) && RetryOk(cfg, sys.State())
    ensures RetryOk(cfg, ApplyWrite(sys, w).State())
  {
    StateAfter(sys, w);
    if w.J? {
      PlainEvent(cfg, sys.State(), w.event);
    }
  }

  lemma {:induction false} PlainList(cfg: Config, good: Calls, sys: Sys, ws: seq<Write>)
    requires AllowsAll(cfg, good, sys, ws) && RetryOk(cfg, sys.State()) && forall w :: w in ws ==> Plain(w)
    ensures RetryOk(cfg, ApplyAll(sys, ws).State())
    decreases |ws|
  {
    if ws != [] {
      assert ws[0] in ws;
      PlainStep(cfg, good, sys, ws[0]);
      PlainList(cfg, good, ApplyWrite(sys, ws[0]), ws[1..]);
    }
  }

  // --- writes that leave every turn as it is ---------------------------------------------------------------------

  predicate Tail(w: Write) {
    match w
    case J(e) =>
      e.RunFinished? || e.CheckpointReached? || e.SpendRecorded? || e.GateEvaluated? || e.StageStarted?
    case B(_) => false
    case D(_) => true
  }

  lemma {:induction false} DeriveTail(log: Log, ps: seq<Proposal>)
    ensures forall w :: w in DeriveWrites(log, ps) ==> w.D?
    decreases |ps|
  {
    if ps != [] {
      DeriveTail(if ps[0].Key() in Keys(log) then log else log + [Decision(Count(log), ps[0], Open, None)], ps[1..]);
    }
  }

  lemma NotesTail(ws: seq<Write>)
    requires forall w :: w in ws ==> Notes(w) || w.D?
    ensures forall w :: w in ws ==> Tail(w)
  {
    forall w | w in ws
      ensures Tail(w)
    {
      assert Notes(w) || w.D?;
    }
  }

  lemma FinalizeTail(cfg: Config, sys: Sys)
    ensures forall w :: w in Finalize(cfg, sys) ==> Tail(w)
  {
    var derived := DeriveWrites(sys.log, AllProposals(cfg, sys.journal));
    DeriveTail(sys.log, AllProposals(cfg, sys.journal));
    RubricsAreNotes(cfg, ApplyAll(sys, derived), Records(sys.journal));
    var gates := RubricGates(cfg, ApplyAll(sys, derived), Records(sys.journal));
    NotesTail(derived + gates);
    assert forall w :: w in Ending(cfg, sys.State().status, ApplyAll(sys, derived).log) ==> Tail(w);
  }

  lemma AftermathTail(cfg: Config, sys: Sys, rec: TurnRecord)
    ensures forall w :: w in Aftermath(cfg, sys, rec) ==> Tail(w)
  {
    RubricIsNote(cfg, sys, rec);
    var mid := ApplyAll(sys, RubricGateWrites(cfg, sys, rec));
    FinalizeTail(cfg, mid);
    NotesTail(RubricGateWrites(cfg, sys, rec));
    assert forall w :: w in Onward(cfg, mid) ==> Tail(w);
  }

  /** The part of the state that decides which turns remain. */
  predicate SameTurns(a: RunState, b: RunState) {
    a.completed == b.completed && a.discarded == b.discarded && a.granted == b.granted
  }

  lemma TailStep(sys: Sys, w: Write)
    requires Tail(w)
    ensures SameTurns(sys.State(), ApplyWrite(sys, w).State()) && ApplyWrite(sys, w).bodies == sys.bodies
  {
    StateAfter(sys, w);
  }

  lemma {:induction false} TailKeepsTurns(sys: Sys, ws: seq<Write>)
    requires forall w :: w in ws ==> Tail(w)
    ensures SameTurns(sys.State(), ApplyAll(sys, ws).State()) && ApplyAll(sys, ws).bodies == sys.bodies
    decreases |ws|
  {
    if ws != [] {
      assert Tail(ws[0]);
      TailStep(sys, ws[0]);
      hide Tail, Fold;
      TailKeepsTurns(ApplyWrite(sys, ws[0]), ws[1..]);
    }
  }

  // --- what recording a turn does --------------------------------------------------------------------------------

  /** One retry of `id` is spent; the last one stops the run. */
  predicate Discards(cfg: Config, s: RunState, next: RunState, id: string) {
    var attempt := Attempts(s, id) + 1;
    && next.completed == s.completed && next.granted == s.granted
    && next.discarded == s.discarded[id := attempt]
    && next.status == if attempt >= Ceiling(cfg, s) then NeedsAttention else s.status
  }

  /** One turn is completed. */
  predicate Completes(s: RunState, next: RunState, rec: TurnRecord) {
    next.completed == s.completed[rec.turnId := rec] && next.discarded == s.discarded && next.granted == s.granted
  }

  /** A rejected result spends exactly one retry, and the last one stops the run. */
  lemma DiscardOutcome(cfg: Config, sys: Sys, id: string, ans: Answer)
    ensures var s := sys.State();
      var next := ApplyAll(sys, Discard(cfg, sys, id, ans)).State();
      Discards(cfg, s, next, id)
  {
    var s := sys.State();
    var attempt := Attempts(s, id) + 1;
    var spend := BookSpend(sys, id, ans, false);
    InformsOnly(sys, spend);
    var w := J(TurnDiscarded(id, attempt, "rejected"));
    var rest := if attempt >= Ceiling(cfg, s) then [J(RunFinished(NeedsAttention))] else [];
    assert Discard(cfg, sys, id, ans) == spend + ([w] + rest);
    ApplyConcat(sys, spend, [w] + rest);
    var sys1 := ApplyAll(sys, spend);
    StateAfter(sys1, w);
    assert ([w] + rest)[1..] == rest;
    if rest != [] {
      StateAfter(ApplyWrite(sys1, w), rest[0]);
      assert ApplyAll(ApplyWrite(sys1, w), rest) == ApplyWrite(ApplyWrite(sys1, w), rest[0]) by {
        assert rest[1..] == [];
      }
    }
  }

  /** The state a completion leaves completes its turn. */
  lemma SpentThenCompleted(cfg: Config, sys: Sys, rec: TurnRecord, ans: Answer)
    ensures var done := AfterCompletion(cfg, sys, rec, ans);
      Completes(sys.State(), done.State(), rec) && done.bodies == sys.bodies[rec.turnId := rec]
  {
    hide Derive, ProposalsOf, Booked;
    var spend := BookSpend(sys, rec.turnId, ans, ans.call.Some?);
    InformsOnly(sys, spend);
    EventsAre(sys, spend);
    hide BookSpend, Events, ApplyAll;
    FoldAppend(sys.journal + Events(spend), TurnCompleted(rec));
  }

  lemma EventsAre(sys: Sys, ws: seq<Write>)
    requires |ws| <= 1 && forall w :: w in ws ==> w.J?
    ensures ApplyAll(sys, ws).journal == sys.journal + Events(ws)
  {
    if ws != [] {
      assert ws == [ws[0]] && ws[..0] == [];
      ApplyOne(sys, ws[0]);
    }
  }

  lemma CompletionOutcome(cfg: Config, good: Calls, sys: Sys, t: Turn, rec: TurnRecord, ans: Answer)
    requires Completing(cfg, good, sys, t, rec, ans)
    ensures var s := sys.State();
      var done := ApplyAll(sys, Completion(cfg, sys, rec, ans));
      var next := ApplyAll(done, Aftermath(cfg, done, rec));
      && Completes(s, next.State(), rec)
      && next.bodies == sys.bodies[rec.turnId := rec]
  {
    CompletionAllowed(cfg, good, sys, t, rec, ans);
    SpentThenCompleted(cfg, sys, rec, ans);
    hide Inv, Completion, Aftermath, AfterCompletion, CompletesPlanned, ApplyAll, Fold;
    var done := ApplyAll(sys, Completion(cfg, sys, rec, ans));
    AftermathTail(cfg, done, rec);
    TailKeepsTurns(done, Aftermath(cfg, done, rec));
  }

  /** Recording a result its turn does not accept spends one retry. */
  lemma RejectedOutcome(cfg: Config, sys: Sys, t: Turn, ans: Answer, now: string)
    requires cfg.Z().Has(t.spec.slot) && t.index < |cfg.units| && !Accepts(ans, t.spec.schema)
    ensures var id := cfg.Id(t.index, t.spec.slot);
      var ran := RecordSpec(cfg, sys, t, ans, now);
      var s, next := sys.State(), ApplyAll(sys, ran.writes).State();
      ran.error.None? && Discards(cfg, s, next, id)
  {
    var id := cfg.Id(t.index, t.spec.slot);
    if ans.output.None? || !Conforms(ans.output.value, t.spec.schema) {
      DiscardOutcome(cfg, sys, id, ans);
    } else {
      var gates := GateWrites(id, ans.gates);
      InformsOnly(sys, gates);
      var sys1 := ApplyAll(sys, gates);
      DiscardOutcome(cfg, sys1, id, ans);
      ApplyConcat(sys, gates, Discard(cfg, sys1, id, ans));
    }
  }

  /** Recording a result its turn accepts completes the turn, unless a conflicting body is in the way. */
  lemma AcceptedOutcome(cfg: Config, good: Calls, sys: Sys, t: Turn, ans: Answer, now: string)
    requires Ok(cfg, good, sys) && sys.journal != [] && sys.State().status == Running
    requires PlannedTurn(cfg, sys.State().completed, t) && cfg.Z().Has(t.spec.slot) && Accepts(ans, t.spec.schema)
    ensures var id := cfg.Id(t.index, t.spec.slot);
      var ran := RecordSpec(cfg, sys, t, ans, now);
      var s, next := sys.State(), ApplyAll(sys, ran.writes).State();
      var rec := SettleBody(sys.bodies, RecordOf(cfg, s, t, ans, now));
      && (rec.None? ==> ran.error == Some(ConflictingBody) && SameCourse(s, next))
      && (rec.Some? ==>
            && (ran.error.None? || ran.error == Some(PlanRaised))
            && Completes(s, next, rec.value) && rec.value.turnId == id
            && rec.value.output == ans.output.value)
  {
    var id := cfg.Id(t.index, t.spec.slot);
    var prelude := Prelude(sys, t, id, ans);
    PreludeAllowed(cfg, good, sys, t, id, ans);
    var sys1 := ApplyAll(sys, prelude);
    var rec := SettleBody(sys1.bodies, RecordOf(cfg, sys.State(), t, ans, now));
    hide Inv, Prelude, Completion, Aftermath, Discard, PlannedTurn, ApplyAll, Finalize, RubricGateWrites;
    if rec.Some? {
      assert Completing(cfg, good, sys1, t, rec.value, ans);
      CompletionOutcome(cfg, good, sys1, t, rec.value, ans);
      SpecWrites(cfg, sys, t, ans, now, sys1, rec.value);
      var completion := Completion(cfg, sys1, rec.value, ans);
      var done := ApplyAll(sys1, completion);
      ApplyConcat(sys, prelude, completion);
      ApplyConcat(sys, prelude + completion, Aftermath(cfg, done, rec.value));
    }
  }

  // --- the retry invariant ------------------------------------------------------------------------------------

  lemma DiscardKeepsRetry(cfg: Config, s: RunState, next: RunState, id: string)
    requires RetryOk(cfg, s) && s.status == Running && Discards(cfg, s, next, id)
    ensures RetryOk(cfg, next)
  {
    forall x | x in next.discarded
      ensures Blocks(next, x, Ceiling(cfg, next)) && next.status != NeedsAttention ==> Blocks(s, x, Ceiling(cfg, s))
    {
    }
  }

  lemma RecordKeepsRetry(cfg: Config, good: Calls, sys: Sys, t: Turn, ans: Answer, now: string)
    requires Ok(cfg, good, sys) && sys.journal != [] && sys.State().status == Running
    requires PlannedTurn(cfg, sys.State().completed, t) && cfg.Z().Has(t.spec.slot)
    requires RetryOk(cfg, sys.State())
    ensures RetryOk(cfg, ApplyAll(sys, RecordSpec(cfg, sys, t, ans, now).writes).State())
  {
    var s, next := sys.State(), ApplyAll(sys, RecordSpec(cfg, sys, t, ans, now).writes).State();
    if !Accepts(ans, t.spec.schema) {
      RejectedOutcome(cfg, sys, t, ans, now);
      DiscardKeepsRetry(cfg, s, next, cfg.Id(t.index, t.spec.slot));
    } else {
      AcceptedOutcome(cfg, good, sys, t, ans, now);
      BlockedLess(s, next, Ceiling(cfg, s));
    }
  }

  lemma ReopenRestores(cfg: Config, sys: Sys, why: string, grant: nat)
    requires Reopen(cfg, sys, why, grant).error.None?
    ensures var next := ApplyAll(sys, Reopen(cfg, sys, why, grant).writes).State();
      next.status == Running && RetryOk(cfg, next)
  {
    var s := sys.State();
    var w := J(RunReopened(cfg.strip(why), grant));
    StateAfter(sys, w);
    assert ApplyAll(sys, [w]) == ApplyWrite(sys, w) by {
      assert [w][1..] == [];
    }
    var next := ApplyWrite(sys, w).State();
    BlockedLess(s, next, Ceiling(cfg, s) + grant);
  }

  lemma ResolveIsPlain(cfg: Config, sys: Sys, id: nat, r: Resolution)
    ensures forall w :: w in Resolve(cfg, sys, id, r).writes ==> Plain(w)
  {
    if sys.journal != [] {
      var plan := PlanResolve(sys.log, id, r);
      if plan.Retry? {
        AfterResolutionPlain(cfg, sys, plan.stored);
      } else if plan.Fresh? {
        AfterResolutionPlain(cfg, ApplyWrite(sys, D(plan.record)), plan.record);
      }
    }
  }

  lemma AfterResolutionPlain(cfg: Config, sys: Sys, d: Decision)
    ensures forall w :: w in AfterResolution(cfg, sys, d).writes ==> Plain(w)
  {
    if d.resolution.Some? {
      var recorded := RecordResolution(sys.journal, d.id, d.resolution.value);
      FinalizeTail(cfg, ApplyAll(sys, recorded.writes));
      assert forall w :: Tail(w) ==> Plain(w);
    }
  }

  lemma CheckIsPlain(cfg: Config, sys: Sys, c: CheckCall)
    ensures forall w :: w in CheckOne(cfg, sys, c).writes ==> Plain(w)
  {
    hide Fold, HasKey, OverCap, SettleBody, Booked, ApplyAll;
  }

  lemma {:induction false} ChecksArePlain(cfg: Config, sys: Sys, calls: seq<CheckCall>)
    ensures forall w :: w in CheckEach(cfg, sys, calls).writes ==> Plain(w)
    decreases |calls|
  {
    if calls != [] {
      CheckIsPlain(cfg, sys, calls[0]);
      ChecksArePlain(cfg, ApplyAll(sys, CheckOne(cfg, sys, calls[0]).writes), calls[1..]);
      hide CheckOne, Plain;
    }
  }

  lemma PlainVerb(cfg: Config, sys: Sys, v: Verb)
    requires !v.ReopenRun?
    requires v.Record? ==> sys.journal == [] || v.id in sys.State().completed
    ensures forall w :: w in Call(cfg, sys, v).writes ==> Plain(w)
  {
    match v
    case StartRun(_) => FinalizeTail(cfg, ApplyAll(sys, [J(RunStarted(cfg.task, cfg.mode))]));
    case Record(id, ans, _) => FinalizeTail(cfg, ApplyAll(sys, BookSpend(sys, id, ans, true)));
    case FinalizeNow => FinalizeTail(cfg, sys);
    case Decide(id, r) => ResolveIsPlain(cfg, sys, id, r);
    case CiteChecks(calls, _, _, _) => ChecksArePlain(cfg, sys, calls);
    case CiteCheck(c) => CheckIsPlain(cfg, sys, c);
    case _ =>
  }

  lemma RecordedKeepsRetry(cfg: Config, good: Calls, sys: Sys, id: string, ans: Answer, now: string)
    requires Ok(cfg, good, sys) && RetryOk(cfg, sys.State())
    requires sys.journal != [] && id !in sys.State().completed
    ensures RetryOk(cfg, ApplyAll(sys, RecordTurn(cfg, sys, id, ans, now).writes).State())
  {
    hide Inv, RetryOk, RecordSpec, PlanUnits, Fold;
    var s := sys.State();
    if s.status == Running && Plan(cfg, s).Success? {
      FoundIsPlanned(cfg, s, id);
      var t := Find(cfg, Plan(cfg, s).value, id);
      if t.Some? {
        RecordKeepsRetry(cfg, good, sys, t.value, ans, now);
      }
    }
  }

  lemma ReopenKeepsRetry(cfg: Config, sys: Sys, why: string, grant: nat)
    requires RetryOk(cfg, sys.State())
    ensures RetryOk(cfg, ApplyAll(sys, Reopen(cfg, sys, why, grant).writes).State())
  {
    hide RetryOk, Fold;
    if Reopen(cfg, sys, why, grant).error.None? {
      ReopenRestores(cfg, sys, why, grant);
    }
  }

  /** Taking each verb as one step, every verb keeps the retry invariant. */
  lemma VerbsKeepRetry(cfg: Config, good: Calls, sys: Sys, v: Verb)
    requires Ok(cfg, good, sys) && GoodVerb(cfg, good, v) && RetryOk(cfg, sys.State())
    ensures RetryOk(cfg, ApplyAll(sys, Call(cfg, sys, v).writes).State())
  {
    hide Inv, RetryOk, RecordTurn, Reopen, Fold, ApplyAll;
    if v.Record? && sys.journal != [] && v.id !in sys.State().completed {
      RecordedKeepsRetry(cfg, good, sys, v.id, v.ans, v.now);
    } else if v.ReopenRun? {
      ReopenKeepsRetry(cfg, sys, v.why, v.grant);
    } else {
      hide Call;
      CallAllowed(cfg, good, sys, v);
      PlainVerb(cfg, sys, v);
      PlainList(cfg, good, sys, Call(cfg, sys, v).writes);
    }
  }

  /** Whole verbs only: no crash. */
  predicate Whole(cfg: Config, history: seq<Step>)
    decreases |history|
  {
    history == [] ||
    (Whole(cfg, history[..|history| - 1])
     && history[|history| - 1].reached
        >= |Call(cfg, Reach(cfg, history[..|history| - 1]), history[|history| - 1].verb).writes|)
  }

  lemma {:induction false} WholeHistoriesKeepRetry(cfg: Config, good: Calls, history: seq<Step>)
    requires cfg.graph.caps.Valid() && GoodHistory(cfg, good, history) && Whole(cfg, history)
    ensures RetryOk(cfg, Reach(cfg, history).State())
  {
    if history != [] {
      var front, step := history[..|history| - 1], history[|history| - 1];
      WholeHistoriesKeepRetry(cfg, good, front);
      HistoryKeepsInv(cfg, good, front);
      var sys := Reach(cfg, front);
      VerbsKeepRetry(cfg, good, sys, step.verb);
      var ws := Call(cfg, sys, step.verb).writes;
      assert ws[..|ws|] == ws;
    }
  }

  /** Needs-attention is left only by a reopen. */
  lemma AttentionNeedsReopen(cfg: Config, good: Calls, sys: Sys, w: Write)
    requires Allows(cfg, good, sys, w) && sys.State().status == NeedsAttention
    ensures ApplyWrite(sys, w).State().status != NeedsAttention <==> w.J? && w.event.RunReopened?
  {
    StateAfter(sys, w);
    if w.J? {
      AttentionEvent(sys.State(), w.event);
    }
    hide Settled, CompletesPlanned, StatusAllows, Apply;
  }

  lemma AttentionEvent(s: RunState, e: Event)
    requires StatusAllows(s, e) && s.status == NeedsAttention
    ensures Apply(s, e).status != NeedsAttention <==> e.RunReopened?
  {
  }

  /** The two appends of a discard are not one: dying between them, on the last attempt, is exactly what
      breaks the retry invariant. */
  lemma CrashedDiscard(cfg: Config, sys: Sys, id: string, ans: Answer, n: nat)
    requires RetryOk(cfg, sys.State()) && sys.State().status == Running && id !in sys.State().completed
    requires n <= |Discard(cfg, sys, id, ans)|
    ensures var last := Attempts(sys.State(), id) + 1 >= Ceiling(cfg, sys.State());
      !RetryOk(cfg, ApplyAll(sys, Discard(cfg, sys, id, ans)[..n]).State())
      <==> last && n == |BookSpend(sys, id, ans, false)| + 1
  {
    var s := sys.State();
    var spend := BookSpend(sys, id, ans, false);
    var w := J(TurnDiscarded(id, Attempts(s, id) + 1, "rejected"));
    var all := Discard(cfg, sys, id, ans);
    if n <= |spend| {
      assert all[..n] == spend[..n];
      InformsOnly(sys, spend[..n]);
    } else if n == |spend| + 1 {
      assert all[..n] == spend + [w];
      ApplyConcat(sys, spend, [w]);
      InformsOnly(sys, spend);
      var sys1 := ApplyAll(sys, spend);
      StateAfter(sys1, w);
      assert ApplyAll(sys1, [w]) == ApplyWrite(sys1, w) by {
        assert [w][1..] == [];
      }
      var next := ApplyWrite(sys1, w).State();
      assert id in next.discarded;
      if Attempts(s, id) + 1 >= Ceiling(cfg, s) {
        assert Blocks(next, id, Ceiling(cfg, next));
      } else {
        DiscardKeepsRetry(cfg, s, next, id);
      }
    } else {
      assert all[..n] == all;
      DiscardOutcome(cfg, sys, id, ans);
      DiscardKeepsRetry(cfg, s, ApplyAll(sys, all).State(), id);
    }
  }
}
