/** Whole runs of the per-request planner: landing planned turns one at a time, in any order and with
    any answers (src/mootloop/stages.py:797-815, src/mootloop/models/pipeline.py:55-68). */
module PlannerRuns {
  import opened Wrappers
  import opened Layout
  import opened Pipeline
  import opened Stages
  import opened Planner
  import Convergence
  import Panels

  datatype Landing = Landing(slot: Slot, output: TurnOutput)

  /** A planned turn of `v` is answered with output of its schema. */
  ghost predicate Lands(g: Graph, v: View, q: Assessment, l: Landing) {
    exists sp :: Planned(g, v, q, sp) && sp.slot == l.slot && Conforms(l.output, sp.schema)
  }

  function Replay(run: seq<Landing>): View {
    if run == [] then map[]
    else Replay(run[..|run| - 1])[run[|run| - 1].slot := run[|run| - 1].output]
  }

  ghost predicate ValidRun(g: Graph, q: Assessment, run: seq<Landing>) {
    run == [] ||
    (ValidRun(g, q, run[..|run| - 1]) && Lands(g, Replay(run[..|run| - 1]), q, run[|run| - 1]))
  }

  /** What a landed turn does to one view. */
  lemma LandingIsNew(g: Graph, v: View, q: Assessment, l: Landing) returns (i: nat)
    requires g.caps.Valid() && Typed(g, v) && Lands(g, v, q, l)
    ensures NewSlot(g, v, l.slot) && Typed(g, v[l.slot := l.output])
    ensures PlannedAt(g, v, q, i) && SlotOfStage(g, g.stages[i], l.slot)
    ensures l.slot in PlanStage(g, v, q, g.stages[i]).value
    ensures g.stages[i] == JuryPanel ==> OperativeDraft(g, v).Some?
  {
    var sp :| Planned(g, v, q, sp) && sp.slot == l.slot && Conforms(l.output, sp.schema);
    i := PlanOrigin(g, v, q);
    PlannedSpec(g, v, q, i, sp);
    if g.stages[i] == JuryPanel {
      SeatsAre(g, JuryPanel);
    }
  }

  lemma {:induction false} RunIsTyped(g: Graph, q: Assessment, run: seq<Landing>)
    requires g.caps.Valid() && ValidRun(g, q, run)
    ensures Typed(g, Replay(run)) && |Replay(run)| == |run|
  {
    if run != [] {
      RunIsTyped(g, q, run[..|run| - 1]);
      var _ := LandingIsNew(g, Replay(run[..|run| - 1]), q, run[|run| - 1]);
    }
  }

  /** Answering a planned turn extends a run. */
  lemma ExtendRun(g: Graph, q: Assessment, run: seq<Landing>, sp: Spec, output: TurnOutput)
    requires ValidRun(g, q, run) && Planned(g, Replay(run), q, sp) && Conforms(output, sp.schema)
    ensures var longer := run + [Landing(sp.slot, output)];
      ValidRun(g, q, longer) && Replay(longer) == Replay(run)[sp.slot := output]
  {
    var longer := run + [Landing(sp.slot, output)];
    assert longer[..|longer| - 1] == run;
    assert Lands(g, Replay(run), q, longer[|longer| - 1]);
  }

  // --- a planned turn stays planned while others land --------------------------------------------

  /** Seats whose outputs no earlier stage reads while they fill. */
  predicate PanelSlot(s: Slot) {
    s.Judge? || s.Juror? || s.RubricFinal?
  }

  ghost predicate SameBut(v: View, w: View, u: Slot) {
    forall s :: s != u ==> (s in v <==> s in w) && (s in v ==> v[s] == w[s])
  }

  lemma {:induction false} LatestSame(v: View, w: View, u: Slot, seats: seq<Slot>)
    requires SameBut(v, w, u) && u !in seats
    ensures LatestIn(v, seats) == LatestIn(w, seats)
  {
    if seats != [] {
      LatestSame(v, w, u, seats[..|seats| - 1]);
    }
  }

  /** Slots whose outputs the partner loop never reads. */
  predicate LoopNeutral(g: Graph, u: Slot) {
    !u.Draft? && !u.Critique? && !u.RubricLoop? && (u.Bolster? ==> g.strategy != AdversarialFirst)
  }

  lemma BolsterSame(g: Graph, v: View, w: View, u: Slot)
    requires SameBut(v, w, u) && !u.Bolster?
    ensures LatestBolster(g, v) == LatestBolster(g, w)
  {
    LatestSame(v, w, u, Seats(g, BolsterPass));
  }

  lemma JudgedSame(g: Graph, v: View, w: View, u: Slot)
    requires SameBut(v, w, u) && !u.Draft? && !u.Bolster?
    ensures JudgedDraft(g, v) == JudgedDraft(g, w)
  {
    BolsterSame(g, v, w, u);
    LatestSame(v, w, u, RedraftSeats(g));
    LatestSame(v, w, u, DraftSeats(g));
  }

  lemma OperativeSame(g: Graph, v: View, w: View, u: Slot)
    requires SameBut(v, w, u) && PanelSlot(u)
    ensures OperativeDraft(g, v) == OperativeDraft(g, w)
  {
    JudgedSame(g, v, w, u);
    LatestSame(v, w, u, Seats(g, RestructurePass));
  }

  lemma InputsSame(g: Graph, v: View, w: View, q: Assessment, u: Slot, r: nat)
    requires SameBut(v, w, u) && LoopNeutral(g, u)
    ensures RoundInputs(g, v, q, r) == RoundInputs(g, w, q, r)
  {
    if !u.Bolster? {
      BolsterSame(g, v, w, u);
    }
    assert PartnerDraft(g, v, r) == PartnerDraft(g, w, r);
  }

  lemma {:induction false} HistorySame(g: Graph, v: View, w: View, q: Assessment, u: Slot, r: nat)
    requires SameBut(v, w, u) && LoopNeutral(g, u)
    ensures History(g, v, q, r) == History(g, w, q, r)
  {
    if r > 0 {
      HistorySame(g, v, w, q, u, r - 1);
      InputsSame(g, v, w, q, u, r);
    }
  }

  lemma {:induction false} SettledSame(g: Graph, v: View, w: View, q: Assessment, u: Slot, r: nat)
    requires SameBut(v, w, u) && LoopNeutral(g, u)
    ensures SettledFrom(g, v, q, r) == SettledFrom(g, w, q, r)
    decreases g.caps.associatePartner + 1 - r
  {
    if r <= g.caps.associatePartner && RoundDone(g, v, r) {
      HistorySame(g, v, w, q, u, r);
      SettledSame(g, v, w, q, u, r + 1);
    }
  }

  lemma {:induction false} RulingsSame(v: View, w: View, u: Slot, n: nat)
    requires SameBut(v, w, u) && !u.Judge?
    ensures JudgeRulings(v, n) == JudgeRulings(w, n)
  {
    if n > 0 {
      RulingsSame(v, w, u, n - 1);
    }
  }

  lemma WeakSame(g: Graph, v: View, w: View, q: Assessment, u: Slot)
    requires SameBut(v, w, u) && !u.Draft? && !u.Bolster? && !u.Judge?
    ensures AnyWeak(g, v, q) == AnyWeak(g, w, q)
  {
    JudgedSame(g, v, w, u);
    RulingsSame(v, w, u, g.panels.judges);
    assert JudgesReadable(g, v) == JudgesReadable(g, w);
  }

  lemma UndoneIsNoJudge(g: Graph, v: View, u: Slot)
    requires g.caps.Valid() && AllIn(v, Seats(g, JudgePanel)) && u !in v && g.SlotSizes().Has(u)
    ensures !u.Judge?
  {
    SeatsAre(g, JudgePanel);
    assert u.Judge? ==> SeatOf(g, JudgePanel, u);
  }

  /** Slots that a completed stage does not read again. */
  predicate StageNeutral(g: Graph, st: Stage, u: Slot) {
    match st
    case PartnerLoop => LoopNeutral(g, u)
    case RestructurePass => !u.Draft? && !u.Bolster?
    case _ => true
  }

  /** Landing a turn a completed stage does not read keeps the stage complete. */
  lemma CompleteStageKept(g: Graph, v: View, w: View, q: Assessment, u: Slot, st: Stage)
    requires g.caps.Valid() && SameBut(v, w, u) && StageNeutral(g, st, u)
    requires u !in v && u in w && g.SlotSizes().Has(u)
    requires IsComplete(g, v, q, st) == Done
    ensures IsComplete(g, w, q, st) == Done
  {
    if st == PartnerLoop {
      SettledSame(g, v, w, q, u, 1);
    } else if st == RestructurePass {
      UndoneIsNoJudge(g, v, u);
      WeakSame(g, v, w, q, u);
    }
  }

  lemma {:induction false} PlanFromSkips(g: Graph, v: View, q: Assessment, from: nat, i: nat)
    requires from <= i <= |g.stages| && DoneBefore(g, v, q, i)
    ensures PlanFrom(g, v, q, from) == PlanFrom(g, v, q, i)
    decreases i - from
  {
    hide IsComplete, PlanStage;
    if from < i {
      assert IsComplete(g, v, q, g.stages[from]) == Done;
      PlanFromSkips(g, v, q, from + 1, i);
    }
  }

  lemma {:induction false} UndoneWithout(v: View, w: View, u: Slot, seats: seq<Slot>, t: Slot)
    requires SameBut(v, w, u) && t in Undone(v, seats) && t != u
    ensures t in Undone(w, seats)
  {
  }

  lemma PanelStillPlans(g: Graph, v: View, w: View, q: Assessment, st: Stage, u: Slot, t: Slot)
    requires g.caps.Valid() && SameBut(v, w, u) && PanelSlot(u)
    requires st == JudgePanel || st == NarrativeAssessment || st == JuryPanel || st == RubricGate
    requires IsComplete(g, v, q, st) == Pending && PlanStage(g, v, q, st).Success?
    requires t in Undone(v, Seats(g, st)) && t != u
    ensures IsComplete(g, w, q, st) == Pending && PlanStage(g, w, q, st).Success?
    ensures t in PlanStage(g, w, q, st).value
  {
    OperativeSame(g, v, w, u);
    hide SameBut, Seats, OperativeDraft;
    UndoneWithout(v, w, u, Seats(g, st), t);
  }

  /** When two turns are planned together, landing one leaves the other planned: a driver may work
      through a plan it computed once. */
  lemma PlanStaysPlanned(g: Graph, v: View, q: Assessment, l: Landing, sp: Spec)
    requires g.caps.Valid() && Typed(g, v) && Lands(g, v, q, l)
    requires Planned(g, v, q, sp) && sp.slot != l.slot
    ensures Planned(g, v[l.slot := l.output], q, sp)
  {
    var u := l.slot;
    var w := v[u := l.output];
    var i := LandingIsNew(g, v, q, l);
    PlannedSpec(g, v, q, i, sp);
    var st := g.stages[i];
    TwoSlotsFanOut(g, v, q, st, u, sp.slot);
    assert SameBut(v, w, u);
    forall k | 0 <= k < i
      ensures IsComplete(g, w, q, g.stages[k]) == Done
    {
      CompleteStageKept(g, v, w, q, u, g.stages[k]);
    }
    PlanFromSkips(g, w, q, 0, i);
    PanelStillPlans(g, v, w, q, st, u, sp.slot);
    var later := PlanStage(g, w, q, st).value;
    var k :| 0 <= k < |later| && later[k] == sp.slot;
    assert SpecsFor(st, later)[k] == Spec(sp.slot, st, SchemaFor(st, sp.slot));
    assert sp == Spec(sp.slot, st, SchemaFor(st, sp.slot));
  }

  /** Only the panels plan two slots at once. */
  lemma TwoSlotsFanOut(g: Graph, v: View, q: Assessment, st: Stage, a: Slot, b: Slot)
    requires g.caps.Valid() && IsComplete(g, v, q, st) == Pending && PlanStage(g, v, q, st).Success?
    requires a != b && a in PlanStage(g, v, q, st).value && b in PlanStage(g, v, q, st).value
    ensures st == JudgePanel || st == NarrativeAssessment || st == JuryPanel || st == RubricGate
    ensures PanelSlot(a) && PlanStage(g, v, q, st).value == Undone(v, Seats(g, st))
  {
    if st == PartnerLoop {
      SettledNeedsFirstDraft(g, v, q);
      PlanRoundsMeaning(g, v, q, 1);
    }
    SeatsAre(g, st);
  }

  // --- runs end -------------------------------------------------------------------------------------

  ghost predicate Stuck(g: Graph, v: View, q: Assessment) {
    PlanRequest(g, v, q).Failure? || PlanRequest(g, v, q).value == []
  }

  function Sample(s: Schema): (o: TurnOutput)
    ensures Conforms(o, s)
  {
    match s
    case DraftSchema => DraftOutput("", [], [], None)
    case CritiqueSchema => CritiqueOutput(false)
    case JudgeSchema => JudgeOutput([])
    case NarrativeSchema => NarrativeOutput
    case JurorSchema => JurorOutput
    case RubricSchema => RubricOutput([])
    case CiteCheckSchema => CiteCheckOutput("")
  }

  lemma {:induction false} DistinctBound(keys: set<Slot>, slots: seq<Slot>)
    requires forall s :: s in keys ==> s in slots
    ensures |keys| <= |slots|
  {
    if slots == [] {
      assert keys == {};
    } else {
      var last := slots[|slots| - 1];
      DistinctBound(keys - {last}, slots[..|slots| - 1]);
      assert keys <= (keys - {last}) + {last};
      Panels.SubsetSize(keys, (keys - {last}) + {last});
    }
  }

  function When(c: bool, slots: seq<Slot>): (r: seq<Slot>)
    ensures |r| == if c then |slots| else 0
    ensures c ==> r == slots
  {
    if c then slots else []
  }

  function LoopSchedule(g: Graph): (r: seq<Slot>)
    ensures |r| == if PartnerLoop in g.stages
      then 2 * g.caps.associatePartner + (if g.RubricEnabled() then g.caps.associatePartner else 0) else 1
  {
    if PartnerLoop in g.stages then
      DraftSeats(g) + CritiqueSeats(g) + When(g.RubricEnabled(), RubricLoopSeats(g))
    else [Draft(1)]
  }

  /** Every slot a graph's stages can ever schedule. */
  function Schedulable(g: Graph): seq<Slot> {
    LoopSchedule(g)
    + When(OcAttack in g.stages, Seats(g, OcAttack))
    + When(BolsterPass in g.stages, Seats(g, BolsterPass))
    + When(JudgePanel in g.stages || NarrativeAssessment in g.stages, Seats(g, JudgePanel))
    + When(RestructurePass in g.stages, Seats(g, RestructurePass))
    + When(JuryPanel in g.stages, Seats(g, JuryPanel))
    + When(RubricGate in g.stages, Seats(g, RubricGate))
  }

  function CritiqueSeats(g: Graph): seq<Slot> {
    seq(g.caps.associatePartner, r requires 0 <= r => Critique(r + 1))
  }

  function RubricLoopSeats(g: Graph): seq<Slot> {
    seq(g.caps.associatePartner, r requires 0 <= r => RubricLoop(r + 1))
  }

  lemma StageSlotsSchedulable(g: Graph, st: Stage, s: Slot)
    requires g.caps.Valid() && st in g.stages && SlotOfStage(g, st, s) && g.SlotSizes().Has(s)
    ensures s in Schedulable(g)
  {
    SeatsAre(g, st);
    if st == PartnerLoop {
      if s.Draft? {
        assert DraftSeats(g)[s.r - 1] == s;
      } else if s.Critique? {
        assert CritiqueSeats(g)[s.r - 1] == s;
      } else {
        assert RubricLoopSeats(g)[s.r - 1] == s;
      }
    } else if st == AssociateDraft {
      assert DraftSeats(g)[0] == s;
    } else {
      assert s in Seats(g, st);
      if st == NarrativeAssessment {
        assert Seats(g, st) == Seats(g, JudgePanel);
      }
    }
  }

  lemma {:induction false} RunStaysSchedulable(g: Graph, q: Assessment, run: seq<Landing>)
    requires g.caps.Valid() && ValidRun(g, q, run)
    ensures forall s :: s in Replay(run) ==> s in Schedulable(g)
  {
    if run != [] {
      var front := run[..|run| - 1];
      var last := run[|run| - 1];
      RunStaysSchedulable(g, q, front);
      RunIsTyped(g, q, front);
      var i := LandingIsNew(g, Replay(front), q, last);
      StageSlotsSchedulable(g, g.stages[i], last.slot);
    }
  }

  lemma SchedulableCount(g: Graph)
    ensures |Schedulable(g)| == TurnCeiling(g.stages, g.caps, g.panels, g.RubricEnabled())
  {
    SeatCounts(g);
    hide Seats, LoopSchedule, When, Caps.Valid, PanelSizes.Valid;
    Lengths(LoopSchedule(g), When(OcAttack in g.stages, Seats(g, OcAttack)),
            When(BolsterPass in g.stages, Seats(g, BolsterPass)),
            When(JudgePanel in g.stages || NarrativeAssessment in g.stages, Seats(g, JudgePanel)),
            When(RestructurePass in g.stages, Seats(g, RestructurePass)),
            When(JuryPanel in g.stages, Seats(g, JuryPanel)), When(RubricGate in g.stages, Seats(g, RubricGate)));
  }

  lemma SeatCounts(g: Graph)
    ensures |Seats(g, OcAttack)| == g.caps.oc && |Seats(g, BolsterPass)| == g.caps.bolster
    ensures |Seats(g, JudgePanel)| == g.panels.judges && |Seats(g, RestructurePass)| == g.caps.restructure
    ensures |Seats(g, JuryPanel)| == (if g.panels.jury then g.panels.jurors else 0)
    ensures |Seats(g, RubricGate)| == g.panels.rubricJudges
  {
  }

  lemma Lengths(a: seq<Slot>, b: seq<Slot>, c: seq<Slot>, d: seq<Slot>, e: seq<Slot>, f: seq<Slot>, h: seq<Slot>)
    ensures |a + b + c + d + e + f + h| == |a| + |b| + |c| + |d| + |e| + |f| + |h|
  {
  }

  /** The committed ceiling holds: whatever the providers answer, no request completes more turns than
      the pipeline's `max_turns_per_request`. */
  lemma RunWithinCeiling(g: Graph, q: Assessment, run: seq<Landing>)
    requires g.caps.Valid() && ValidRun(g, q, run)
    ensures |run| <= TurnCeiling(g.stages, g.caps, g.panels, g.RubricEnabled())
    ensures Compiled(g) ==> |run| <= g.maxTurns
  {
    RunIsTyped(g, q, run);
    RunStaysSchedulable(g, q, run);
    DistinctBound(Replay(run).Keys, Schedulable(g));
    SchedulableCount(g);
    assert |Replay(run).Keys| == |Replay(run)|;
  }

  /** Any run can be driven on until nothing more is planned. */
  lemma {:induction false} DriveToEnd(g: Graph, q: Assessment, run: seq<Landing>) returns (end: seq<Landing>)
    requires g.caps.Valid() && ValidRun(g, q, run)
    ensures ValidRun(g, q, end) && Stuck(g, Replay(end), q)
    decreases TurnCeiling(g.stages, g.caps, g.panels, g.RubricEnabled()) - |run|
  {
    if Stuck(g, Replay(run), q) {
      end := run;
    } else {
      var sp := PlanRequest(g, Replay(run), q).value[0];
      var next := run + [Landing(sp.slot, Sample(sp.schema))];
      assert next[..|next| - 1] == run;
      assert Planned(g, Replay(run), q, sp);
      RunWithinCeiling(g, q, next);
      end := DriveToEnd(g, q, next);
    }
  }

  // --- exactly the ordered graphs can finish ------------------------------------------------------------

  ghost predicate PartnerBarred(g: Graph, i: nat) {
    i < |g.stages| && g.stages[i] == PartnerLoop && AssociateDraft !in g.stages[..i]
  }

  lemma FirstDraftNotPlanned(g: Graph, v: View, q: Assessment, i: nat, k: nat, s: Slot)
    requires PartnerBarred(g, i) && PlannedAt(g, v, q, k) && SlotOfStage(g, g.stages[k], s) && Draft(1) !in v
    ensures s != Draft(1)
  {
    SettledNeedsFirstDraft(g, v, q);
    assert IsComplete(g, v, q, g.stages[i]) == Pending;
    assert k <= i;
    assert k < i ==> g.stages[..i][k] == g.stages[k];
  }

  lemma {:induction false} NoFirstDraft(g: Graph, q: Assessment, i: nat, run: seq<Landing>)
    requires g.caps.Valid() && PartnerBarred(g, i) && ValidRun(g, q, run)
    ensures Draft(1) !in Replay(run) && IsComplete(g, Replay(run), q, PartnerLoop) == Pending
  {
    if run != [] {
      var front, last := run[..|run| - 1], run[|run| - 1];
      NoFirstDraft(g, q, i, front);
      RunIsTyped(g, q, front);
      var k := LandingIsNew(g, Replay(front), q, last);
      FirstDraftNotPlanned(g, Replay(front), q, i, k, last.slot);
    }
    SettledNeedsFirstDraft(g, Replay(run), q);
  }

  ghost predicate RestructureBarred(g: Graph, i: nat) {
    i < |g.stages| && g.stages[i] == RestructurePass && FirstJudging(g.stages[..i]).None?
  }

  lemma RestructureWaits(g: Graph, v: View, q: Assessment)
    requires Runnable(g) && Judge(1) !in v
    ensures IsComplete(g, v, q, RestructurePass) == Pending
  {
    SeatsAre(g, JudgePanel);
    assert SeatOf(g, JudgePanel, Judge(1));
  }

  lemma JudgeNotPlanned(g: Graph, v: View, q: Assessment, i: nat, k: nat, s: Slot)
    requires Runnable(g) && RestructureBarred(g, i) && PlannedAt(g, v, q, k)
    requires SlotOfStage(g, g.stages[k], s) && Judge(1) !in v
    ensures s != Judge(1)
  {
    RestructureWaits(g, v, q);
    assert IsComplete(g, v, q, g.stages[i]) == Pending;
    assert k <= i;
    FirstJudgingPrefix(g.stages[..i], i);
    assert k < i ==> g.stages[..i][k] == g.stages[k] && !Judging(g.stages[k]);
    assert !Judging(g.stages[k]);
  }

  lemma {:induction false} NoJudge(g: Graph, q: Assessment, i: nat, run: seq<Landing>)
    requires Runnable(g) && RestructureBarred(g, i) && ValidRun(g, q, run)
    ensures Judge(1) !in Replay(run)
  {
    if run != [] {
      var front, last := run[..|run| - 1], run[|run| - 1];
      NoJudge(g, q, i, front);
      RunIsTyped(g, q, front);
      var k := LandingIsNew(g, Replay(front), q, last);
      JudgeNotPlanned(g, Replay(front), q, i, k, last.slot);
    }
  }

  ghost predicate JuryBarred(g: Graph, i: nat) {
    && i < |g.stages| && g.stages[i] == JuryPanel && g.panels.jury && !HasDraftSource(g, g.stages[..i])
    && forall k :: 0 <= k < |g.stages| ==> !PartnerBarred(g, k)
  }

  /** No juror has read and no draft exists. */
  ghost predicate NoDraftYet(g: Graph, v: View) {
    Juror(1) !in v && OperativeDraft(g, v).None?
  }

  lemma NoDraftAnywhere(g: Graph, v: View)
    requires g.caps.Valid()
    ensures OperativeDraft(g, v).None? <==>
      forall s :: s in v && g.SlotSizes().Has(s) ==> !s.Draft? && !s.Bolster? && !s.Restructure?
  {
    SeatsAre(g, BolsterPass);
    SeatsAre(g, RestructurePass);
    forall s: Slot | s.Draft? && g.SlotSizes().Has(s)
      ensures s in DraftSeats(g)
    {
      assert DraftSeats(g)[s.r - 1] == s;
    }
  }

  /** Up to a barred jury no stage makes a first draft. */
  lemma NoSourceBefore(g: Graph, i: nat, k: nat)
    requires JuryBarred(g, i) && k <= i
    ensures g.stages[k] != AssociateDraft && g.stages[k] != PartnerLoop
    ensures g.stages[k] == BolsterPass ==> g.caps.bolster == 0
  {
    if k < i {
      assert g.stages[..i][k] == g.stages[k];
      assert !PartnerBarred(g, k);
      assert forall st :: st in g.stages[..k] ==> st in g.stages[..i];
    }
  }

  /** Without a draft there is nothing to restructure and nothing to try before a jury. */
  lemma NothingToWorkOn(g: Graph, v: View, q: Assessment)
    requires OperativeDraft(g, v).None?
    ensures PlanStage(g, v, q, RestructurePass) == Success([])
    ensures g.panels.jury ==> PlanStage(g, v, q, JuryPanel).Failure?
  {
    assert JudgedDraft(g, v).None?;
    assert PanelResults(g, v) == Some([]);
  }

  lemma StopsAtJury(g: Graph, v: View, q: Assessment, i: nat, k: nat)
    requires Runnable(g) && JuryBarred(g, i) && PlannedAt(g, v, q, k) && Juror(1) !in v
    ensures k <= i
  {
    SeatsAre(g, JuryPanel);
    assert SeatOf(g, JuryPanel, Juror(1));
    assert IsComplete(g, v, q, g.stages[i]) == Pending;
  }

  lemma DraftNotPlanned(g: Graph, v: View, q: Assessment, i: nat, k: nat, s: Slot)
    requires Runnable(g) && JuryBarred(g, i) && PlannedAt(g, v, q, k) && NoDraftYet(g, v)
    requires s in PlanStage(g, v, q, g.stages[k]).value && SlotOfStage(g, g.stages[k], s) && g.SlotSizes().Has(s)
    ensures !s.Juror? && !s.Draft? && !s.Bolster? && !s.Restructure?
  {
    StopsAtJury(g, v, q, i, k);
    NoSourceBefore(g, i, k);
    NothingToWorkOn(g, v, q);
    hide PlanStage, IsComplete, OperativeDraft, DoneBefore, PlanRequest;
  }

  lemma {:induction false} NoDraft(g: Graph, q: Assessment, i: nat, run: seq<Landing>)
    requires Runnable(g) && JuryBarred(g, i) && ValidRun(g, q, run)
    ensures NoDraftYet(g, Replay(run))
  {
    NoDraftAnywhere(g, Replay(run));
    if run != [] {
      var front, last := run[..|run| - 1], run[|run| - 1];
      NoDraft(g, q, i, front);
      RunIsTyped(g, q, front);
      var k := LandingIsNew(g, Replay(front), q, last);
      DraftNotPlanned(g, Replay(front), q, i, k, last.slot);
      NoDraftAnywhere(g, Replay(front));
    }
  }

  /** Judge seats filled by a narrative assessment cannot be read as rulings. */
  lemma NarrativeUnreadable(g: Graph, v: View, q: Assessment, i: nat)
    requires Runnable(g) && Typed(g, v) && i < |g.stages| && g.stages[i] == RestructurePass && !g.document
    requires FirstJudging(g.stages[..i]) == Some(NarrativeAssessment)
    ensures !RequestComplete(g, v, q)
  {
    FirstJudgingPrefix(g.stages, i);
    SeatsAre(g, JudgePanel);
    assert SeatOf(g, JudgePanel, Judge(1));
    var d :| 0 <= d < |g.stages| && g.stages[d] == AssociateDraft;
    assert Draft(1) in Seats(g, AssociateDraft);
    assert DraftSeats(g)[0] == Draft(1);
    assert Judge(1) in v ==> v[Judge(1)].NarrativeOutput?;
    assert IsComplete(g, v, q, g.stages[d]) == Done ==> Draft(1) in v;
  }

  /** A graph that is not ordered never completes a request, whatever the providers answer. */
  lemma UnorderedNeverCompletes(g: Graph, q: Assessment, run: seq<Landing>)
    requires Runnable(g) && !Ordered(g) && ValidRun(g, q, run)
    ensures !RequestComplete(g, Replay(run), q)
  {
    var v := Replay(run);
    var i :| 0 <= i < |g.stages| && !OrderedAt(g, i);
    RunIsTyped(g, q, run);
    if k :| 0 <= k < |g.stages| && PartnerBarred(g, k) {
      NoFirstDraft(g, q, k, run);
      assert IsComplete(g, v, q, g.stages[k]) == Pending;
    } else if g.stages[i] == RestructurePass {
      FirstJudgingMember(g.stages[..i]);
      if FirstJudging(g.stages[..i]).None? {
        NoJudge(g, q, i, run);
        RestructureWaits(g, v, q);
        assert IsComplete(g, v, q, g.stages[i]) == Pending;
      } else {
        NarrativeUnreadable(g, v, q, i);
      }
    } else {
      assert !PartnerBarred(g, i);
      NoDraft(g, q, i, run);
      SeatsAre(g, JuryPanel);
      assert SeatOf(g, JuryPanel, Juror(1));
      assert IsComplete(g, v, q, g.stages[i]) == Pending;
    }
  }

  /** In every reachable view the planner raises only over an oversized jury draft and is out of work only
      when it is done. */
  ghost predicate Progresses(g: Graph, q: Assessment) {
    forall run :: ValidRun(g, q, run) ==>
      && (PlanRequest(g, Replay(run), q).Failure? <==> JuryBlocked(g, Replay(run), q))
      && (PlanRequest(g, Replay(run), q).Success? ==>
            (PlanRequest(g, Replay(run), q).value == [] <==> RequestComplete(g, Replay(run), q)))
  }

  /** Every draft fits the jurors' prompt. */
  const Roomy := Assessment(_ => 0.0, _ => 0.0, (_, _) => 0.0, Convergence.Floors(0.0, 0.0, 0.0), 0.0, _ => true)

  /** Exactly the ordered graphs progress under every assessment. The graph check does not ask for this
      order, so an adapter may ship a graph that compiles and never finishes. */
  lemma ProgressIffOrdered(g: Graph)
    requires Runnable(g)
    ensures (forall q :: Progresses(g, q)) <==> Ordered(g)
  {
    if Ordered(g) {
      forall q, run | ValidRun(g, q, run)
        ensures PlanRequest(g, Replay(run), q).Failure? <==> JuryBlocked(g, Replay(run), q)
        ensures PlanRequest(g, Replay(run), q).Success? ==>
          (PlanRequest(g, Replay(run), q).value == [] <==> RequestComplete(g, Replay(run), q))
      {
        RunIsTyped(g, q, run);
        NeverStalls(g, Replay(run), q);
      }
    } else {
      assert ValidRun(g, Roomy, []);
      var end := DriveToEnd(g, Roomy, []);
      UnorderedNeverCompletes(g, Roomy, end);
      assert !JuryBlocked(g, Replay(end), Roomy);
      assert !Progresses(g, Roomy);
    }
  }

  lemma {:induction false} WithoutNothing(stages: seq<Stage>, removed: set<Stage>)
    requires forall s :: s in stages ==> s !in removed
    ensures Without(stages, removed) == stages
  {
    if stages != [] {
      WithoutNothing(stages[..|stages| - 1], removed);
    }
  }

  const StallStages: seq<Stage> := [AssociateDraft, RestructurePass, JudgePanel, Assemble]
  const StallPersonas: set<Persona> := {Associate, JudgePersona}

  function StallAdapter(): Adapter {
    var c := StrategyConfig(StallStages, 1);
    Adapter(false, StallStages, Caps(1, 0, 0, 1), PanelSizes(1, false, 0, 1), [],
            map[ThinFull := c, DeepCore := c, AdversarialFirst := c])
  }

  lemma StallEffective()
    ensures EffectiveStages(StallStages, StallPersonas, []) == StallStages
    ensures Opponents(StallPersonas) == []
  {
    hide Without;
    assert forall s :: s in StallStages ==> s !in Removed(StallPersonas, []);
    WithoutNothing(StallStages, Removed(StallPersonas, []));
  }

  lemma StallRequired()
    ensures Required(StallAdapter(), StallPersonas, []) == {AssociateDraft, JudgePanel, RestructurePass}
  {
  }

  function StallGraph(): Graph {
    var caps, panels := Caps(1, 0, 0, 1), PanelSizes(1, false, 0, 1);
    Graph(ThinFull, StallStages, caps, panels, [], false, Associate, [], StallPersonas,
          TurnCeiling(StallStages, caps, panels, false))
  }

  lemma StallUnordered()
    ensures !Ordered(StallGraph()) && OwnershipOk(StallGraph())
  {
    var g := StallGraph();
    assert g.stages[..1] == [AssociateDraft];
    FirstJudgingPrefix([AssociateDraft], 0);
    assert !OrderedAt(g, 1);
  }

  /** A graph that compiles, and whose restructure stage waits for a judge panel placed after it. */
  lemma CompiledMayStall()
    ensures StallAdapter().Valid()
    ensures Compile(StallAdapter(), StallPersonas, ThinFull, None) == Success(StallGraph())
    ensures !Ordered(StallGraph())
  {
    StallEffective();
    StallRequired();
    StallUnordered();
    hide EffectiveStages, Required, Opponents, Ordered;
    forall s: Strategy
      ensures s in StallAdapter().strategies
    {
      assert s == ThinFull || s == DeepCore || s == AdversarialFirst;
    }
    var a := StallAdapter();
    assert ThinFull in a.strategies && a.strategies[ThinFull].stages == StallStages;
    assert GraphOk(StallStages);
    assert a.strategies != map[];
    assert AssociateDraft in StallStages && JudgePanel in StallStages && RestructurePass in StallStages;
    assert Refusal(a, StallPersonas, ThinFull).None?;
    assert Effective(StallAdapter(), StallPersonas, ThinFull, None) == StallGraph();
  }
}
