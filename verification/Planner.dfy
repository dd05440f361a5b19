/** What the per-request planner guarantees: every planned turn is new, the plan is empty exactly when
    the request is complete, and exactly which graphs ever finish (src/mootloop/stages.py:797-815). */
module Planner {
  import opened Wrappers
  import opened Layout
  import opened Pipeline
  import opened Stages

  // --- which graphs can run through ------------------------------------------------------

  function FirstJudging(stages: seq<Stage>): Option<Stage> {
    if stages == [] then None
    else
      var f := FirstJudging(stages[..|stages| - 1]);
      if f.Some? then f
      else if Judging(stages[|stages| - 1]) then Some(stages[|stages| - 1])
      else None
  }

  predicate HasDraftSource(g: Graph, stages: seq<Stage>) {
    AssociateDraft in stages || (BolsterPass in stages && g.caps.bolster >= 1)
  }

  /** What stage `i` needs from the stages before it. */
  predicate OrderedAt(g: Graph, i: nat)
    requires i < |g.stages|
  {
    var before := g.stages[..i];
    match g.stages[i]
    case PartnerLoop => AssociateDraft in before
    case RestructurePass =>
      FirstJudging(before).Some? && (g.document || FirstJudging(before).value == JudgePanel)
    case JuryPanel => g.panels.jury ==> HasDraftSource(g, before)
    case _ => true
  }

  /** Partner review after the first draft, restructure after a judge panel, jurors after a draft. */
  predicate Ordered(g: Graph) {
    forall i :: 0 <= i < |g.stages| ==> OrderedAt(g, i)
  }

  ghost predicate Runnable(g: Graph) {
    g.caps.Valid() && g.panels.Valid() && AssociateDraft in g.stages
  }

  lemma {:induction false} FirstJudgingPrefix(stages: seq<Stage>, i: nat)
    requires i <= |stages|
    ensures FirstJudging(stages[..i]).Some? ==> FirstJudging(stages) == FirstJudging(stages[..i])
    ensures FirstJudging(stages).None? <==> forall s :: s in stages ==> !Judging(s)
    decreases |stages|
  {
    if stages != [] {
      var front := stages[..|stages| - 1];
      if i < |stages| {
        assert front[..i] == stages[..i];
        FirstJudgingPrefix(front, i);
      } else {
        assert stages[..i] == stages;
        FirstJudgingPrefix(front, |front|);
      }
    }
  }

  lemma FirstJudgingMember(stages: seq<Stage>)
    ensures FirstJudging(stages).Some? ==> FirstJudging(stages).value in stages && Judging(FirstJudging(stages).value)
  {
  }

  // --- well-typed views --------------------------------------------------------------------

  /** Judge seats are shared by the judge panel and the narrative assessment: whichever comes first
      fills them. */
  function SchemaOf(g: Graph, s: Slot): Schema {
    SchemaFor(if FirstJudging(g.stages) == Some(NarrativeAssessment) then NarrativeAssessment else JudgePanel, s)
  }

  ghost predicate Typed(g: Graph, v: View) {
    forall s :: s in v ==> g.SlotSizes().Has(s) && Conforms(v[s], SchemaOf(g, s))
  }

  // --- seats -----------------------------------------------------------------------------------

  ghost predicate Distinct(slots: seq<Slot>) {
    forall i, j :: 0 <= i < j < |slots| ==> slots[i] != slots[j]
  }

  /** The seats of a stage other than the partner loop, as a condition on slots. */
  ghost predicate SeatOf(g: Graph, st: Stage, s: Slot) {
    && g.SlotSizes().Has(s)
    && match st
       case AssociateDraft => s == Draft(1)
       case OcAttack => s.Oc?
       case BolsterPass => s.Bolster?
       case JudgePanel => s.Judge?
       case NarrativeAssessment => s.Judge?
       case RestructurePass => s.Restructure?
       case JuryPanel => s.Juror?
       case RubricGate => s.RubricFinal?
       case PartnerLoop => false
       case Assemble => false
  }

  lemma SeatsAre(g: Graph, st: Stage)
    requires g.caps.Valid()
    ensures forall s :: s in Seats(g, st) <==> SeatOf(g, st, s)
    ensures Distinct(Seats(g, st))
  {
    var seats := Seats(g, st);
    forall s | SeatOf(g, st, s)
      ensures s in seats
    {
      match st
      case AssociateDraft =>
      case OcAttack => assert seats[s.k - 1] == s;
      case BolsterPass => assert seats[s.k - 1] == s;
      case JudgePanel => assert seats[s.j - 1] == s;
      case NarrativeAssessment => assert seats[s.j - 1] == s;
      case RestructurePass => assert seats[s.k - 1] == s;
      case JuryPanel => assert seats[s.j - 1] == s;
      case RubricGate => assert seats[s.m - 1] == s;
    }
  }

  lemma {:induction false} UndoneDistinct(v: View, seats: seq<Slot>)
    requires Distinct(seats)
    ensures Distinct(Undone(v, seats))
  {
    if seats != [] {
      UndoneDistinct(v, seats[..|seats| - 1]);
      var rest := Undone(v, seats[..|seats| - 1]);
      forall i | 0 <= i < |rest|
        ensures rest[i] != seats[|seats| - 1]
      {
        assert rest[i] in rest;
      }
    }
  }

  // --- the partner loop --------------------------------------------------------------------------

  /** The slots the partner loop fills; the first draft is not one of them. */
  ghost predicate LoopSlot(g: Graph, s: Slot) {
    s != Draft(1) && (s.Draft? || s.Critique? || (s.RubricLoop? && g.RubricEnabled()))
  }

  /** The loop plans one new slot of the current round until the round at which it settles. */
  lemma {:induction false} PlanRoundsMeaning(g: Graph, v: View, q: Assessment, r: nat)
    requires 1 <= r <= g.caps.associatePartner
    requires if r == 1 then Draft(1) in v else RoundDone(g, v, r - 1)
    ensures var p := PlanRounds(g, v, q, r);
      && p.Success?
      && (if SettledFrom(g, v, q, r).Some? then p.value == []
          else
            && |p.value| == 1 && p.value[0] !in v && g.SlotSizes().Has(p.value[0])
            && LoopSlot(g, p.value[0]))
    decreases g.caps.associatePartner - r
  {
    if RoundDone(g, v, r) && !Settles(g, v, q, r) {
      PlanRoundsMeaning(g, v, q, r + 1);
    }
  }

  lemma SettledNeedsFirstDraft(g: Graph, v: View, q: Assessment)
    ensures SettledFrom(g, v, q, 1).Some? ==> Draft(1) in v
    ensures g.caps.Valid() && Draft(1) !in v ==> PlanRounds(g, v, q, 1) == Failure(MissingRecord)
  {
  }

  // --- the first incomplete stage --------------------------------------------------------------------

  lemma {:induction false} FirstIncomplete(g: Graph, v: View, q: Assessment, from: nat) returns (i: nat)
    requires from <= |g.stages| && DoneBefore(g, v, q, from)
    ensures from <= i <= |g.stages| && DoneBefore(g, v, q, i)
    ensures PlanFrom(g, v, q, from) == PlanFrom(g, v, q, i)
    ensures i < |g.stages| ==> IsComplete(g, v, q, g.stages[i]) != Done
    ensures i == |g.stages| <==> RequestComplete(g, v, q)
    decreases |g.stages| - from
  {
    if from < |g.stages| && IsComplete(g, v, q, g.stages[from]) == Done {
      i := FirstIncomplete(g, v, q, from + 1);
    } else {
      i := from;
    }
  }

  // --- every planned turn is new ------------------------------------------------------------------------

  ghost predicate NewSlot(g: Graph, v: View, s: Slot) {
    s !in v && g.SlotSizes().Has(s)
  }

  lemma PlanStageNew(g: Graph, v: View, q: Assessment, st: Stage)
    requires g.caps.Valid() && IsComplete(g, v, q, st) == Pending && PlanStage(g, v, q, st).Success?
    ensures var slots := PlanStage(g, v, q, st).value;
      Distinct(slots) && forall s :: s in slots ==> NewSlot(g, v, s) && SlotOfStage(g, st, s)
  {
    if st == PartnerLoop {
      SettledNeedsFirstDraft(g, v, q);
      PlanRoundsMeaning(g, v, q, 1);
    } else {
      SeatsAre(g, st);
      UndoneDistinct(v, Seats(g, st));
      PlannedSeats(g, v, q, st);
    }
  }

  lemma PlannedSeats(g: Graph, v: View, q: Assessment, st: Stage)
    requires st != PartnerLoop && IsComplete(g, v, q, st) == Pending && PlanStage(g, v, q, st).Success?
    ensures var slots := PlanStage(g, v, q, st).value;
      || slots == []
      || slots == Undone(v, Seats(g, st))
      || (|slots| == 1 && slots[0] in Undone(v, Seats(g, st)))
  {
    if st == AssociateDraft {
      assert Seats(g, st) == [Draft(1)];
      assert Draft(1) in Undone(v, Seats(g, st));
    }
  }

  /** What a stage may schedule. */
  ghost predicate SlotOfStage(g: Graph, st: Stage, s: Slot) {
    if st == PartnerLoop then LoopSlot(g, s) else SeatOf(g, st, s)
  }

  ghost predicate Planned(g: Graph, v: View, q: Assessment, sp: Spec) {
    PlanRequest(g, v, q).Success? && sp in PlanRequest(g, v, q).value
  }

  /** A judging stage among completed stages has filled the judge seats. */
  lemma JudgesDone(g: Graph, v: View, q: Assessment, i: nat)
    requires i <= |g.stages| && DoneBefore(g, v, q, i)
    ensures FirstJudging(g.stages[..i]).Some? ==> AllIn(v, Seats(g, JudgePanel))
  {
    var before := g.stages[..i];
    FirstJudgingMember(before);
    if FirstJudging(before).Some? {
      var k :| 0 <= k < i && before[k] == FirstJudging(before).value;
      assert IsComplete(g, v, q, g.stages[k]) == Done;
      assert Seats(g, g.stages[k]) == Seats(g, JudgePanel);
    }
  }

  /** Judge seats are planned by the first judging stage of the graph. */
  lemma JudgePlannedByFirst(g: Graph, v: View, q: Assessment, i: nat)
    requires i < |g.stages| && Judging(g.stages[i])
    requires DoneBefore(g, v, q, i) && IsComplete(g, v, q, g.stages[i]) == Pending
    ensures FirstJudging(g.stages) == Some(g.stages[i])
  {
    JudgesDone(g, v, q, i);
    assert Seats(g, g.stages[i]) == Seats(g, JudgePanel);
    assert g.stages[..i + 1][..i] == g.stages[..i];
    FirstJudgingPrefix(g.stages, i + 1);
  }

  /** Where a plan comes from: the first stage that is not complete. */
  ghost predicate PlannedAt(g: Graph, v: View, q: Assessment, i: nat) {
    && i < |g.stages| && DoneBefore(g, v, q, i)
    && IsComplete(g, v, q, g.stages[i]) == Pending
    && PlanStage(g, v, q, g.stages[i]).Success?
    && PlanRequest(g, v, q) == Success(SpecsFor(g.stages[i], PlanStage(g, v, q, g.stages[i]).value))
  }

  lemma PlanOrigin(g: Graph, v: View, q: Assessment) returns (i: nat)
    requires PlanRequest(g, v, q).Success?
    ensures if RequestComplete(g, v, q) then PlanRequest(g, v, q).value == [] else PlannedAt(g, v, q, i)
  {
    i := FirstIncomplete(g, v, q, 0);
  }

  lemma PlannedSpec(g: Graph, v: View, q: Assessment, i: nat, sp: Spec)
    requires g.caps.Valid() && PlannedAt(g, v, q, i) && sp in PlanRequest(g, v, q).value
    ensures NewSlot(g, v, sp.slot) && SlotOfStage(g, g.stages[i], sp.slot) && sp.stage == g.stages[i]
    ensures sp.slot in PlanStage(g, v, q, g.stages[i]).value
    ensures sp.schema == SchemaOf(g, sp.slot)
  {
    var st := g.stages[i];
    PlanStageNew(g, v, q, st);
    var slots := PlanStage(g, v, q, st).value;
    var k :| 0 <= k < |slots| && SpecsFor(st, slots)[k] == sp;
    assert slots[k] in slots;
    if Judging(st) {
      JudgePlannedByFirst(g, v, q, i);
    }
  }

  /** Every turn the planner schedules is a slot of the request that is not completed yet, carries the
      schema that slot's record must have, and is scheduled once. */
  lemma PlanIsNew(g: Graph, v: View, q: Assessment)
    requires g.caps.Valid() && PlanRequest(g, v, q).Success?
    ensures var specs := PlanRequest(g, v, q).value;
      && (forall sp :: sp in specs ==> NewSlot(g, v, sp.slot) && sp.schema == SchemaOf(g, sp.slot))
      && (forall a, b :: 0 <= a < b < |specs| ==> specs[a].slot != specs[b].slot)
  {
    var i := PlanOrigin(g, v, q);
    if !RequestComplete(g, v, q) {
      PlanStageNew(g, v, q, g.stages[i]);
      forall sp | sp in PlanRequest(g, v, q).value
        ensures NewSlot(g, v, sp.slot) && sp.schema == SchemaOf(g, sp.slot)
      {
        PlannedSpec(g, v, q, i, sp);
      }
    }
  }

  // --- the plan is empty exactly when the request is complete ------------------------------------------

  /** The only exception an ordered graph leaves: the jurors' draft is over their prompt limit. */
  ghost predicate JuryBlocked(g: Graph, v: View, q: Assessment) {
    exists i :: 0 <= i < |g.stages| && JuryBlockedAt(g, v, q, i)
  }

  ghost predicate JuryBlockedAt(g: Graph, v: View, q: Assessment, i: nat)
    requires i < |g.stages|
  {
    && g.stages[i] == JuryPanel && DoneBefore(g, v, q, i) && IsComplete(g, v, q, JuryPanel) == Pending
    && OperativeDraft(g, v).Some? && !q.fits(OperativeDraft(g, v).value)
  }

  lemma DraftSourceDrafts(g: Graph, v: View, q: Assessment, i: nat)
    requires g.caps.Valid() && i <= |g.stages| && DoneBefore(g, v, q, i) && HasDraftSource(g, g.stages[..i])
    ensures OperativeDraft(g, v).Some?
  {
    SeatsAre(g, BolsterPass);
    if AssociateDraft in g.stages[..i] {
      var k :| 0 <= k < i && g.stages[k] == AssociateDraft;
      assert IsComplete(g, v, q, AssociateDraft) == Done;
      assert Draft(1) in Seats(g, AssociateDraft);
      assert DraftSeats(g)[0] == Draft(1);
    } else {
      var k :| 0 <= k < i && g.stages[k] == BolsterPass;
      assert IsComplete(g, v, q, BolsterPass) == Done;
      assert SeatOf(g, BolsterPass, Bolster(1));
    }
  }

  lemma JudgesReadableWhenTyped(g: Graph, v: View, q: Assessment, i: nat)
    requires Typed(g, v) && i < |g.stages| && g.stages[i] == RestructurePass && OrderedAt(g, i)
    ensures AnyWeak(g, v, q).Some?
  {
    FirstJudgingPrefix(g.stages, i);
    var draft := JudgedDraft(g, v);
    if draft.Some? {
      JudgedIsDraft(g, v);
    }
  }

  lemma {:induction false} LatestMember(v: View, seats: seq<Slot>)
    ensures var o := LatestIn(v, seats); o.Some? ==> exists s :: s in seats && s in v && v[s] == o.value
  {
    if seats != [] && seats[|seats| - 1] !in v {
      LatestMember(v, seats[..|seats| - 1]);
    }
  }

  lemma JudgedIsDraft(g: Graph, v: View)
    requires Typed(g, v)
    ensures JudgedDraft(g, v).Some? ==> JudgedDraft(g, v).value.DraftOutput?
  {
    LatestMember(v, RedraftSeats(g));
    LatestMember(v, Seats(g, BolsterPass));
    LatestMember(v, DraftSeats(g));
  }

  /** On an ordered graph, planning either schedules something, or the request is complete, or the
      jurors' draft is too large: it never stalls and never raises otherwise. */
  lemma NeverStalls(g: Graph, v: View, q: Assessment)
    requires Runnable(g) && Ordered(g) && Typed(g, v)
    ensures PlanRequest(g, v, q).Failure? <==> JuryBlocked(g, v, q)
    ensures PlanRequest(g, v, q).Success? ==> (PlanRequest(g, v, q).value == [] <==> RequestComplete(g, v, q))
  {
    var i := FirstIncomplete(g, v, q, 0);
    if i < |g.stages| {
      var st := g.stages[i];
      assert OrderedAt(g, i);
      if st == PartnerLoop {
        var k :| 0 <= k < i && g.stages[k] == AssociateDraft;
        assert IsComplete(g, v, q, g.stages[k]) == Done;
        assert Draft(1) in Seats(g, AssociateDraft);
        PlanRoundsMeaning(g, v, q, 1);
      } else if st == RestructurePass {
        JudgesReadableWhenTyped(g, v, q, i);
        JudgesDone(g, v, q, i);
      } else if st == JuryPanel && g.panels.jury {
        DraftSourceDrafts(g, v, q, i);
        if !q.fits(OperativeDraft(g, v).value) {
          assert JuryBlockedAt(g, v, q, i);
        }
      }
      if st != PartnerLoop {
        var u := Undone(v, Seats(g, st));
        if st != RestructurePass {
          assert !AllIn(v, Seats(g, st));
        }
        var missing :| missing in Seats(g, st) && missing !in v;
        assert missing in u;
      }
    }
    if JuryBlocked(g, v, q) {
      var k :| 0 <= k < |g.stages| && JuryBlockedAt(g, v, q, k);
      assert k == i;
    }
  }

}
