/** Why every drive of a run ends, and why a driver may work through a plan it computed once
    (src/mootloop/provider_driver.py:97-173). */
module EngineDrive {
  import opened Wrappers
  import opened Layout
  import opened Stages
  import opened Journal
  import opened Engine
  import opened EngineSafety
  import opened EngineVerbs
  import opened EngineRetry
  import Format
  import Planner
  import PlannerRuns

  /** The records one turn may still take. */
  function Left(cfg: Config, s: RunState, id: string): nat {
    if id in s.completed || Attempts(s, id) >= Ceiling(cfg, s) then 0 else Ceiling(cfg, s) - Attempts(s, id)
  }

  function LeftBelow(cfg: Config, s: RunState, n: nat): nat {
    if n == 0 then 0 else LeftBelow(cfg, s, n - 1) + Left(cfg, s, TurnId(cfg.runId, n - 1))
  }

  /** The records the whole run may still take. */
  function Budget(cfg: Config, s: RunState): nat {
    LeftBelow(cfg, s, |cfg.units| * cfg.Z().Block())
  }

  lemma {:induction false} LeftBelowBound(cfg: Config, s: RunState, n: nat)
    ensures LeftBelow(cfg, s, n) <= n * Ceiling(cfg, s)
  {
    if n > 0 {
      LeftBelowBound(cfg, s, n - 1);
      MulStep(Ceiling(cfg, s), n - 1, n);
    }
  }

  /** A run has at most requests times block size times retry ceiling records in it. */
  lemma BudgetBound(cfg: Config, s: RunState)
    ensures Budget(cfg, s) <= |cfg.units| * cfg.Z().Block() * (cfg.maxAttempts + s.granted)
  {
    LeftBelowBound(cfg, s, |cfg.units| * cfg.Z().Block());
    hide LeftBelow, Left, Sizes.Block, Config.Z;
  }

  lemma TurnIdInjective(runId: string, a: nat, b: nat)
    requires TurnId(runId, a) == TurnId(runId, b)
    ensures a == b
  {
    var prefix := runId + "-t";
    assert Format.Pad4(a) == TurnId(runId, a)[|prefix|..];
    assert Format.Pad4(b) == TurnId(runId, b)[|prefix|..];
    Format.Pad4Injective(a, b);
  }

  ghost predicate OnlyLess(cfg: Config, s: RunState, next: RunState, id: string) {
    && Left(cfg, next, id) < Left(cfg, s, id)
    && forall other: string :: other != id ==> Left(cfg, next, other) == Left(cfg, s, other)
  }

  lemma {:induction false} LeftBelowDrops(cfg: Config, s: RunState, next: RunState, k: nat, n: nat)
    requires OnlyLess(cfg, s, next, TurnId(cfg.runId, k))
    ensures if k < n then LeftBelow(cfg, next, n) < LeftBelow(cfg, s, n)
      else LeftBelow(cfg, next, n) == LeftBelow(cfg, s, n)
  {
    if n > 0 {
      LeftBelowDrops(cfg, s, next, k, n - 1);
      if TurnId(cfg.runId, n - 1) == TurnId(cfg.runId, k) {
        TurnIdInjective(cfg.runId, n - 1, k);
      }
    }
  }

  lemma {:induction false} LeftBelowSame(cfg: Config, s: RunState, next: RunState, n: nat)
    requires SameTurns(s, next)
    ensures LeftBelow(cfg, next, n) == LeftBelow(cfg, s, n)
  {
    if n > 0 {
      LeftBelowSame(cfg, s, next, n - 1);
    }
  }

  lemma SameBudget(cfg: Config, s: RunState, next: RunState)
    requires SameTurns(s, next)
    ensures Budget(cfg, next) == Budget(cfg, s)
  {
    LeftBelowSame(cfg, s, next, |cfg.units| * cfg.Z().Block());
  }

  lemma HasLeft(cfg: Config, s: RunState, id: string)
    requires cfg.maxAttempts >= 1 && RetryOk(cfg, s) && s.status != NeedsAttention && id !in s.completed
    ensures Left(cfg, s, id) >= 1 && Attempts(s, id) < Ceiling(cfg, s)
  {
    if id in s.discarded {
      assert !Blocks(s, id, Ceiling(cfg, s));
    }
  }

  lemma BudgetDrops(cfg: Config, s: RunState, next: RunState, t: Turn)
    requires t.index < |cfg.units| && cfg.Z().Has(t.spec.slot)
    requires OnlyLess(cfg, s, next, cfg.Id(t.index, t.spec.slot))
    ensures Budget(cfg, next) < Budget(cfg, s)
  {
    SlotsInRun(cfg.Z(), |cfg.units|, t.index, t.spec.slot);
    LeftBelowDrops(cfg, s, next, Seq(cfg.Z(), t.index, t.spec.slot), |cfg.units| * cfg.Z().Block());
  }

  lemma DiscardIsLess(cfg: Config, s: RunState, next: RunState, id: string)
    requires Discards(cfg, s, next, id) && Left(cfg, s, id) >= 1
    ensures OnlyLess(cfg, s, next, id)
  {
  }

  lemma CompletionIsLess(cfg: Config, s: RunState, next: RunState, rec: TurnRecord)
    requires Completes(s, next, rec) && Left(cfg, s, rec.turnId) >= 1
    ensures OnlyLess(cfg, s, next, rec.turnId)
  {
  }

  /** Every recorded result, accepted or not, uses up one of the records the run may still take. */
  lemma RecordSpendsBudget(cfg: Config, good: Calls, sys: Sys, t: Turn, ans: Answer, now: string)
    requires Ok(cfg, good, sys) && sys.journal != [] && sys.State().status == Running && cfg.maxAttempts >= 1
    requires PlannedTurn(cfg, sys.State().completed, t) && cfg.Z().Has(t.spec.slot)
    requires RetryOk(cfg, sys.State()) && RecordSpec(cfg, sys, t, ans, now).error != Some(ConflictingBody)
    ensures Budget(cfg, ApplyAll(sys, RecordSpec(cfg, sys, t, ans, now).writes).State()) < Budget(cfg, sys.State())
  {
    var s, next := sys.State(), ApplyAll(sys, RecordSpec(cfg, sys, t, ans, now).writes).State();
    var id := cfg.Id(t.index, t.spec.slot);
    PlannedIsNew(cfg, s.completed, t);
    HasLeft(cfg, s, id);
    if !Accepts(ans, t.spec.schema) {
      RejectedOutcome(cfg, sys, t, ans, now);
      DiscardIsLess(cfg, s, next, id);
    } else {
      AcceptedOutcome(cfg, good, sys, t, ans, now);
      var rec := SettleBody(sys.bodies, RecordOf(cfg, s, t, ans, now)).value;
      CompletionIsLess(cfg, s, next, rec);
    }
    BudgetDrops(cfg, s, next, t);
  }

  // --- working through a plan computed once -------------------------------------------------------------------

  predicate Apart(a: Turn, b: Turn) {
    a.index != b.index || a.spec.slot != b.spec.slot
  }

  predicate AllApart(turns: seq<Turn>) {
    forall i, j :: 0 <= i < j < |turns| ==> Apart(turns[i], turns[j])
  }

  lemma {:induction false} TurnsAt(i: nat, specs: seq<Spec>)
    ensures |Turns(i, specs)| == |specs| && forall k :: 0 <= k < |specs| ==> Turns(i, specs)[k] == Turn(i, specs[k])
  {
    if specs != [] {
      TurnsAt(i, specs[..|specs| - 1]);
    }
  }

  lemma {:induction false} PlanApart(cfg: Config, completed: map<string, TurnRecord>, n: nat)
    requires cfg.graph.caps.Valid() && n <= |cfg.units| && PlanUnits(cfg, completed, n).Success?
    ensures AllApart(PlanUnits(cfg, completed, n).value)
  {
    hide PlanRequest, ViewOf;
    if n > 0 {
      PlanApart(cfg, completed, n - 1);
      PlanUnitsMembers(cfg, completed, n - 1);
      var front := PlanUnits(cfg, completed, n - 1).value;
      var specs := PlanUnit(cfg, completed, n - 1).value;
      TurnsAt(n - 1, specs);
      Planner.PlanIsNew(cfg.graph, ViewOf(cfg, completed, n - 1), cfg.assess(n - 1));
      assert forall k :: 0 <= k < |front| ==> front[k] in front;
      AppendApart(front, Turns(n - 1, specs), n - 1);
    }
  }

  lemma AppendApart(front: seq<Turn>, back: seq<Turn>, i: nat)
    requires AllApart(front) && AllApart(back)
    requires (forall k :: 0 <= k < |front| ==> front[k].index < i) && forall k :: 0 <= k < |back| ==> back[k].index == i
    ensures AllApart(front + back)
  {
  }

  /** When another planned turn completes, a planned turn stays planned, in its own request or another. */
  lemma OthersStayPlanned(cfg: Config, sys: Sys, t: Turn, other: Turn, r: TurnRecord)
    requires cfg.graph.caps.Valid() && PlannedOnly(cfg, sys) && CompletesPlanned(cfg, sys, r, t)
    requires PlannedTurn(cfg, sys.State().completed, other) && Apart(t, other)
    ensures PlannedTurn(cfg, sys.State().completed[r.turnId := r], other)
  {
    var c := sys.State().completed;
    ViewAfter(cfg, c, t.index, t.spec.slot, r, other.index);
    if other.index == t.index {
      var v := ViewOf(cfg, c, t.index);
      var run :| PlannerRuns.ValidRun(cfg.graph, cfg.assess(t.index), run) && PlannerRuns.Replay(run) == v;
      PlannerRuns.RunIsTyped(cfg.graph, cfg.assess(t.index), run);
      var l := PlannerRuns.Landing(t.spec.slot, r.output);
      assert PlannerRuns.Lands(cfg.graph, v, cfg.assess(t.index), l);
      PlannerRuns.PlanStaysPlanned(cfg.graph, v, cfg.assess(t.index), l, other.spec);
    }
  }

  /** After recording one turn of a plan, the rest of the plan is still planned, whatever the answer. */
  lemma RestStaysPlanned(cfg: Config, good: Calls, sys: Sys, t: Turn, ans: Answer, now: string, other: Turn)
    requires Ok(cfg, good, sys) && sys.journal != [] && sys.State().status == Running
    requires PlannedTurn(cfg, sys.State().completed, t) && cfg.Z().Has(t.spec.slot)
    requires PlannedTurn(cfg, sys.State().completed, other) && Apart(t, other)
    requires RecordSpec(cfg, sys, t, ans, now).error != Some(ConflictingBody)
    ensures var next := ApplyAll(sys, RecordSpec(cfg, sys, t, ans, now).writes).State();
      PlannedTurn(cfg, next.completed, other)
  {
    if !Accepts(ans, t.spec.schema) {
      RejectedOutcome(cfg, sys, t, ans, now);
    } else {
      AcceptedOutcome(cfg, good, sys, t, ans, now);
      var rec := SettleBody(sys.bodies, RecordOf(cfg, sys.State(), t, ans, now)).value;
      assert CompletesPlanned(cfg, sys, rec, t);
      OthersStayPlanned(cfg, sys, t, other, rec);
    }
  }

  // --- an empty plan ends the run -----------------------------------------------------------------------------

  ghost predicate CanFinish(cfg: Config) {
    Planner.Runnable(cfg.graph) && Planner.Ordered(cfg.graph)
  }

  /** On an ordered graph an empty plan means that every request is complete. */
  lemma EmptyPlanIsComplete(cfg: Config, good: Calls, sys: Sys)
    requires Ok(cfg, good, sys) && CanFinish(cfg) && sys.State().status == Running
    requires Plan(cfg, sys.State()) == Success([])
    ensures AllComplete(cfg, sys.State().completed)
  {
    var c := sys.State().completed;
    hide PlanUnits, ViewOf, PlanRequest, RequestComplete, Planner.Ordered, Fold;
    PlanUnitsMembers(cfg, c, |cfg.units|);
    forall i: nat | i < |cfg.units|
      ensures UnitComplete(cfg, c, i)
    {
      var specs := PlanUnit(cfg, c, i).value;
      assert specs != [] ==> PlannedTurn(cfg, c, Turn(i, specs[0]));
      EmptyUnitIsComplete(cfg, c, i);
    }
  }

  lemma EmptyUnitIsComplete(cfg: Config, c: map<string, TurnRecord>, i: nat)
    requires CanFinish(cfg) && RunOf(cfg, i, ViewOf(cfg, c, i)) && PlanUnit(cfg, c, i) == Success([])
    ensures UnitComplete(cfg, c, i)
  {
    hide PlanRequest, RequestComplete, Planner.Ordered;
    var v := ViewOf(cfg, c, i);
    var run :| PlannerRuns.ValidRun(cfg.graph, cfg.assess(i), run) && PlannerRuns.Replay(run) == v;
    PlannerRuns.RunIsTyped(cfg.graph, cfg.assess(i), run);
    Planner.NeverStalls(cfg.graph, v, cfg.assess(i));
  }

  /** Finalizing a run whose requests are all complete ends with one event that stops it. */
  lemma FinalizeEnds(cfg: Config, sys: Sys) returns (front: seq<Write>, last: Event)
    requires sys.State().status == Running && AllComplete(cfg, sys.State().completed)
    ensures Finalize(cfg, sys) == front + [J(last)] && last.RunFinished?
    ensures last.status == Finished || last.status == NeedsDecisions
    ensures forall w :: w in front ==> w.D? || Notes(w)
  {
    hide DeriveWrites, RubricGates, Records, AllProposals, Fold, ApplyAll, AllComplete, OpenKind;
    var derived := DeriveWrites(sys.log, AllProposals(cfg, sys.journal));
    var sys1 := ApplyAll(sys, derived);
    var ending := Ending(cfg, Running, sys1.log);
    front := derived + RubricGates(cfg, sys1, Records(sys.journal));
    DeriveTail(sys.log, AllProposals(cfg, sys.journal));
    RubricsAreNotes(cfg, sys1, Records(sys.journal));
    last := ending[0].event;
    assert ending == [J(last)];
  }

  /** Finalizing a run whose requests are all complete stops it. */
  lemma FinalizeStops(cfg: Config, sys: Sys)
    requires sys.State().status == Running && AllComplete(cfg, sys.State().completed)
    ensures ApplyAll(sys, Finalize(cfg, sys)).State().status != Running
  {
    var front, last := FinalizeEnds(cfg, sys);
    EndsStopped(sys, front, last);
  }

  lemma EndsStopped(sys: Sys, front: seq<Write>, last: Event)
    requires last.RunFinished? && last.status != Running
    ensures ApplyAll(sys, front + [J(last)]).State().status != Running
  {
    ApplyConcat(sys, front, [J(last)]);
    ApplyOne(ApplyAll(sys, front), J(last));
    StateAfter(ApplyAll(sys, front), J(last));
    hide Fold, ApplyAll, ApplyWrite;
  }
}
