/** Exactly when a completed stage can open again as later turns land (src/mootloop/stages.py:280-365,
    411-836). */
module PlannerReopen {
  import opened Wrappers
  import opened Layout
  import opened Pipeline
  import opened Stages
  import opened Planner
  import opened PlannerRuns
  import Convergence
  import Panels

  /** Whether the bolster seats are filled before stage `j`. */
  predicate Bolstered(g: Graph, j: nat)
    requires j < |g.stages|
  {
    BolsterPass in g.stages[..j] && g.caps.bolster >= 1
  }

  /** Whether stage `j` can change the draft the judges ruled on. */
  predicate Redrafts(g: Graph, j: nat)
    requires j < |g.stages|
  {
    match g.stages[j]
    case BolsterPass => g.caps.bolster >= 1
    case AssociateDraft => !Bolstered(g, j)
    case PartnerLoop => g.caps.associatePartner >= 2 && (g.strategy == AdversarialFirst || !Bolstered(g, j))
    case _ => false
  }

  /** Whether stage `j` can open the completed stage `i` again: a bolster can undo the convergence of an
      earlier partner loop that reviewed the bolstered draft, and a new draft, once the judges are in, the
      verdict of a restructure pass, be it earlier or complete ahead of its turn. */
  predicate Reopens(g: Graph, i: nat, j: nat)
    requires i < |g.stages| && j < |g.stages|
  {
    || (i < j && g.stages[i] == PartnerLoop && g.stages[j] == BolsterPass && g.strategy == AdversarialFirst
        && g.RubricEnabled() && g.caps.associatePartner >= 3 && g.caps.bolster >= 1)
    || (g.stages[i] == RestructurePass && !g.document && g.caps.restructure >= 1 && Redrafts(g, j)
        && FirstJudging(g.stages[..j]).Some?)
  }

  /** No stage is followed by one that reopens it. */
  predicate Settled(g: Graph) {
    forall i: nat, j: nat | i < j < |g.stages| :: !Reopens(g, i, j)
  }

  /** No stage is reopened by any other. */
  predicate FullySettled(g: Graph) {
    forall i: nat, j: nat | i < |g.stages| && j < |g.stages| :: !Reopens(g, i, j)
  }

  /** Landing `l` keeps every stage that was completed, with all stages before it. */
  ghost predicate KeepsDone(g: Graph, v: View, q: Assessment, l: Landing) {
    forall k: nat :: k <= |g.stages| && DoneBefore(g, v, q, k) ==> DoneBefore(g, v[l.slot := l.output], q, k)
  }

  /** Landing `l` keeps every completed stage, whatever comes before it. */
  ghost predicate KeepsStages(g: Graph, v: View, q: Assessment, l: Landing) {
    forall i: nat :: i < |g.stages| && IsComplete(g, v, q, g.stages[i]) == Done ==>
      IsComplete(g, v[l.slot := l.output], q, g.stages[i]) == Done
  }

  /** In every run, with every assessment, every completed stage stays complete. */
  ghost predicate StagesStay(g: Graph) {
    forall q: Assessment, run: seq<Landing>, l: Landing ::
      ValidRun(g, q, run) && Lands(g, Replay(run), q, l) ==> KeepsStages(g, Replay(run), q, l)
  }

  /** In every run, with every assessment, a completed prefix of the stages stays complete. */
  ghost predicate StaysComplete(g: Graph) {
    forall q: Assessment, run: seq<Landing>, l: Landing ::
      ValidRun(g, q, run) && Lands(g, Replay(run), q, l) ==> KeepsDone(g, Replay(run), q, l)
  }

  // --- when nothing reopens -------------------------------------------------------------------------------

  lemma {:induction false} SettledIndifferent(g: Graph, v: View, w: View, q: Assessment, u: Slot, r: nat)
    requires SameBut(v, w, u) && u.Bolster? && (!g.RubricEnabled() || g.caps.associatePartner <= 2)
    ensures SettledFrom(g, v, q, r) == SettledFrom(g, w, q, r)
    decreases g.caps.associatePartner + 1 - r
  {
    if r <= g.caps.associatePartner && RoundDone(g, v, r) {
      assert RoundDone(g, w, r);
      SettlesIndifferent(g, v, w, q, u, r);
      hide Settles, RoundDone, SameBut;
      SettledIndifferent(g, v, w, q, u, r + 1);
    }
  }

  lemma SettlesIndifferent(g: Graph, v: View, w: View, q: Assessment, u: Slot, r: nat)
    requires SameBut(v, w, u) && u.Bolster? && (!g.RubricEnabled() || g.caps.associatePartner <= 2)
    requires r <= g.caps.associatePartner
    ensures Settles(g, v, q, r) == Settles(g, w, q, r)
  {
    if g.caps.associatePartner <= 2 {
      NeverConverges(g, v, q, r);
      NeverConverges(g, w, q, r);
    }
    hide ConvergedAt;
  }

  /** Convergence takes two rounds before the last. */
  lemma NeverConverges(g: Graph, v: View, q: Assessment, r: nat)
    requires r <= g.caps.associatePartner <= 2
    ensures !ConvergedAt(g, v, q, r)
  {
    hide History;
  }

  lemma WeakFromJudged(g: Graph, v: View, w: View, q: Assessment, u: Slot)
    requires SameBut(v, w, u) && !u.Judge? && JudgedDraft(g, v) == JudgedDraft(g, w)
    ensures AnyWeak(g, v, q) == AnyWeak(g, w, q)
  {
    RulingsSame(v, w, u, g.panels.judges);
    assert JudgesReadable(g, v) == JudgesReadable(g, w);
  }

  /** A draft that the judges do not read leaves their draft as it was. */
  lemma JudgedUnmoved(g: Graph, v: View, w: View, u: Slot)
    requires SameBut(v, w, u) && u.Draft? && LatestBolster(g, v).Some?
    requires g.strategy == AdversarialFirst ==> u == Draft(1)
    ensures JudgedDraft(g, v) == JudgedDraft(g, w)
  {
    BolsterSame(g, v, w, u);
    if g.strategy == AdversarialFirst {
      LatestSame(v, w, u, RedraftSeats(g));
    }
  }

  lemma BolsteredHasLatest(g: Graph, v: View, q: Assessment, k: nat)
    requires k < |g.stages| && Bolstered(g, k) && DoneBefore(g, v, q, k) && g.caps.Valid()
    ensures LatestBolster(g, v).Some?
  {
    var b :| 0 <= b < k && g.stages[b] == BolsterPass;
    assert IsComplete(g, v, q, g.stages[b]) == Done;
    SeatsAre(g, BolsterPass);
    assert SeatOf(g, BolsterPass, Bolster(1));
  }

  lemma PartnerStays(g: Graph, v: View, w: View, q: Assessment, u: Slot, i: nat, k: nat)
    requires g.caps.Valid() && SameBut(v, w, u) && u !in v && u in w && g.SlotSizes().Has(u)
    requires i < k && PlannedAt(g, v, q, k) && SlotOfStage(g, g.stages[k], u)
    requires g.stages[i] == PartnerLoop && !Reopens(g, i, k)
    ensures IsComplete(g, w, q, PartnerLoop) == Done
  {
    assert IsComplete(g, v, q, g.stages[i]) == Done;
    SettledNeedsFirstDraft(g, v, q);
    if LoopNeutral(g, u) {
      CompleteStageKept(g, v, w, q, u, PartnerLoop);
    } else {
      assert u.Bolster?;
      SettledIndifferent(g, v, w, q, u, 1);
    }
  }

  lemma RestructureStays(g: Graph, v: View, w: View, q: Assessment, u: Slot, i: nat, k: nat)
    requires g.caps.Valid() && SameBut(v, w, u) && u !in v && u in w && g.SlotSizes().Has(u) && Typed(g, w)
    requires i < |g.stages| && PlannedAt(g, v, q, k) && SlotOfStage(g, g.stages[k], u)
    requires g.stages[i] == RestructurePass && OrderedAt(g, i) && !Reopens(g, i, k)
    requires FirstJudging(g.stages[..k]).Some? && IsComplete(g, v, q, RestructurePass) == Done
    ensures IsComplete(g, w, q, RestructurePass) == Done
  {
    if StageNeutral(g, RestructurePass, u) {
      CompleteStageKept(g, v, w, q, u, RestructurePass);
    } else if g.document || g.caps.restructure == 0 {
      JudgesReadableWhenTyped(g, w, q, i);
      IdlePassStays(g, v, w, q, u);
    } else {
      BolsteredHasLatest(g, v, q, k);
      JudgedUnmoved(g, v, w, u);
      WeakFromJudged(g, v, w, q, u);
      PassStaysDone(g, v, w, q, u);
    }
  }

  lemma IdlePassStays(g: Graph, v: View, w: View, q: Assessment, u: Slot)
    requires SameBut(v, w, u) && u in w && AnyWeak(g, w, q).Some? && (g.document || g.caps.restructure == 0)
    requires IsComplete(g, v, q, RestructurePass) == Done
    ensures IsComplete(g, w, q, RestructurePass) == Done
  {
    assert g.document ==> AnyWeak(g, w, q) == Some(false);
    hide AnyWeak;
  }

  lemma PassStaysDone(g: Graph, v: View, w: View, q: Assessment, u: Slot)
    requires SameBut(v, w, u) && u in w && AnyWeak(g, w, q) == AnyWeak(g, v, q)
    requires IsComplete(g, v, q, RestructurePass) == Done
    ensures IsComplete(g, w, q, RestructurePass) == Done
  {
    hide AnyWeak;
  }

  /** Judges sit before any stage that follows a restructure pass. */
  lemma JudgedAfter(g: Graph, i: nat, j: nat)
    requires i < j <= |g.stages| && g.stages[i] == RestructurePass && OrderedAt(g, i)
    ensures FirstJudging(g.stages[..j]).Some?
  {
    assert g.stages[..j][..i] == g.stages[..i];
    FirstJudgingPrefix(g.stages[..j], i);
  }

  lemma SettledGraphsStay(g: Graph)
    requires Runnable(g) && Ordered(g) && Settled(g)
    ensures StaysComplete(g)
  {
    forall q: Assessment, run: seq<Landing>, l: Landing | ValidRun(g, q, run) && Lands(g, Replay(run), q, l)
      ensures KeepsDone(g, Replay(run), q, l)
    {
      RunIsTyped(g, q, run);
      LandingKeepsDone(g, Replay(run), q, l);
    }
  }

  /** As turns land on a settled graph, a request never goes back to an earlier stage. */
  lemma LandingKeepsDone(g: Graph, v: View, q: Assessment, l: Landing)
    requires Runnable(g) && Ordered(g) && Settled(g) && Typed(g, v) && Lands(g, v, q, l)
    ensures KeepsDone(g, v, q, l)
  {
    var k := LandingIsNew(g, v, q, l);
    var u := l.slot;
    var w := v[u := l.output];
    assert SameBut(v, w, u);
    forall i: nat | i < k
      ensures IsComplete(g, w, q, g.stages[i]) == Done
    {
      assert IsComplete(g, v, q, g.stages[i]) == Done;
      assert OrderedAt(g, i) && !Reopens(g, i, k);
      if g.stages[i] == PartnerLoop {
        PartnerStays(g, v, w, q, u, i, k);
      } else if g.stages[i] == RestructurePass {
        JudgedAfter(g, i, k);
        RestructureStays(g, v, w, q, u, i, k);
      } else {
        CompleteStageKept(g, v, w, q, u, g.stages[i]);
      }
    }
  }

  // --- a uniform run up to a stage --------------------------------------------------------------------------

  const Blank := DraftOutput("", [], [], None)
  const Contested := DraftOutput("x", [Panels.Objection(Panels.Basis("", ""), "")], [], None)
  const Strike := Panels.Ruling(Panels.Basis("", ""), false, "")

  /** The same answer everywhere: blank drafts, one critique verdict, every judge striking. */
  function Uniform(g: Graph, approve: bool, s: Slot): (o: TurnOutput)
    ensures Conforms(o, SchemaOf(g, s))
  {
    match SchemaOf(g, s)
    case DraftSchema => Blank
    case CritiqueSchema => CritiqueOutput(approve)
    case JudgeSchema => JudgeOutput([Strike])
    case NarrativeSchema => NarrativeOutput
    case JurorSchema => JurorOutput
    case RubricSchema => RubricOutput([])
    case CiteCheckSchema => CiteCheckOutput("")
  }

  /** Equal texts are alike, different ones are not. */
  const Plain := Assessment(
    _ => 0.0, _ => 1.0, (a, b) => if a == b then 1.0 else 0.0, Convergence.Floors(1.0, 0.5, 0.0), 0.5, _ => true)

  ghost predicate UniformView(g: Graph, approve: bool, v: View) {
    forall s :: s in v ==> g.SlotSizes().Has(s) && v[s] == Uniform(g, approve, s)
  }

  /** Only stages before `j` have filled slots. */
  ghost predicate Early(g: Graph, j: nat, v: View) {
    forall s :: s in v ==> exists k: nat :: k < j && k < |g.stages| && SlotOfStage(g, g.stages[k], s)
  }

  /** The last round a uniform run can draft. */
  predicate ShortLoop(g: Graph, approve: bool, s: Slot) {
    s.Draft? && g.strategy == AdversarialFirst ==>
      && (approve ==> s.r <= 1)
      && (g.RubricEnabled() && g.caps.associatePartner >= 3 ==> s.r <= 2)
  }

  ghost predicate Within(g: Graph, approve: bool, j: nat, v: View) {
    && UniformView(g, approve, v) && Early(g, j, v)
    && forall s :: s in v ==> !s.Restructure? && ShortLoop(g, approve, s)
  }

  lemma UniformDrafts(g: Graph, approve: bool, v: View, seats: seq<Slot>)
    requires UniformView(g, approve, v) && forall s :: s in seats ==> s.Draft? || s.Bolster? || s.Restructure?
    ensures LatestIn(v, seats).Some? ==> LatestIn(v, seats).value == Blank
  {
    Planner.LatestMember(v, seats);
  }

  lemma UniformJudged(g: Graph, approve: bool, v: View)
    requires UniformView(g, approve, v)
    ensures JudgedDraft(g, v).Some? ==> JudgedDraft(g, v).value == Blank
    ensures LatestBolster(g, v).Some? ==> LatestBolster(g, v).value == Blank
  {
    UniformDrafts(g, approve, v, RedraftSeats(g));
    UniformDrafts(g, approve, v, Seats(g, BolsterPass));
    UniformDrafts(g, approve, v, DraftSeats(g));
  }

  /** A uniform view has no weak objection, since its drafts have none. */
  lemma NeverWeak(g: Graph, approve: bool, v: View, i: nat)
    requires UniformView(g, approve, v) && i < |g.stages| && g.stages[i] == RestructurePass && OrderedAt(g, i)
    ensures AnyWeak(g, v, Plain) == Some(false)
  {
    JudgesReadableWhenTyped(g, v, Plain, i);
    UniformJudged(g, approve, v);
  }

  /** Two alike rounds converge. */
  lemma UniformConverges(g: Graph, approve: bool, v: View)
    requires UniformView(g, approve, v) && RoundDone(g, v, 1) && RoundDone(g, v, 2)
    requires g.caps.associatePartner >= 3
    ensures ConvergedAt(g, v, Plain, 2)
  {
    UniformJudged(g, approve, v);
    var a, b := RoundInputs(g, v, Plain, 1), RoundInputs(g, v, Plain, 2);
    assert a == Convergence.RoundState(0.0, 1.0, "") == b;
    assert History(g, v, Plain, 0) == [];
    assert History(g, v, Plain, 1) == [a];
    assert History(g, v, Plain, 2) == [a, b];
  }

  lemma RoundsStayShort(g: Graph, approve: bool, v: View)
    requires g.caps.Valid() && UniformView(g, approve, v) && Draft(1) in v && PlanRounds(g, v, Plain, 1).Success?
    ensures forall s :: s in PlanRounds(g, v, Plain, 1).value ==> ShortLoop(g, approve, s)
  {
    if g.strategy == AdversarialFirst && RoundDone(g, v, 1) {
      assert approve ==> Approved(v, 1);
      if g.RubricEnabled() && g.caps.associatePartner >= 3 && RoundDone(g, v, 2) {
        UniformConverges(g, approve, v);
        assert Settles(g, v, Plain, 2);
      }
    }
  }

  /** Answering the first planned turn of an early stage keeps the view within bounds. */
  lemma UniformLanding(g: Graph, approve: bool, j: nat, v: View, k: nat, s: Slot)
    requires Runnable(g) && Ordered(g) && k < j && Within(g, approve, j, v) && PlannedAt(g, v, Plain, k)
    requires s in PlanStage(g, v, Plain, g.stages[k]).value && NewSlot(g, v, s) && SlotOfStage(g, g.stages[k], s)
    ensures Within(g, approve, j, v[s := Uniform(g, approve, s)])
  {
    hide PlanStage, Uniform, Ordered;
    NoRestructurePlanned(g, approve, v, k);
    LandingStaysShort(g, approve, v, k, s);
    UniformIsTyped(g, approve, s);
  }

  lemma UniformIsTyped(g: Graph, approve: bool, s: Slot)
    ensures Conforms(Uniform(g, approve, s), SchemaOf(g, s))
  {
  }

  /** A uniform run never plans a restructure turn. */
  lemma NoRestructurePlanned(g: Graph, approve: bool, v: View, k: nat)
    requires Ordered(g) && UniformView(g, approve, v) && PlannedAt(g, v, Plain, k)
    ensures g.stages[k] != RestructurePass
  {
    assert OrderedAt(g, k);
    JudgesDone(g, v, Plain, k);
    if g.stages[k] == RestructurePass {
      NeverWeak(g, approve, v, k);
      assert false;
    }
  }

  lemma LandingStaysShort(g: Graph, approve: bool, v: View, k: nat, s: Slot)
    requires g.caps.Valid() && UniformView(g, approve, v) && PlannedAt(g, v, Plain, k)
    requires s in PlanStage(g, v, Plain, g.stages[k]).value && SlotOfStage(g, g.stages[k], s)
    ensures ShortLoop(g, approve, s)
  {
    hide UniformView;
    if g.stages[k] == PartnerLoop {
      SettledNeedsFirstDraft(g, v, Plain);
      RoundsStayShort(g, approve, v);
    }
  }

  /** A uniform run reaches the point where every stage before `j` is complete. */
  lemma {:induction false} ReachStage(g: Graph, approve: bool, j: nat, run: seq<Landing>) returns (end: seq<Landing>)
    requires Runnable(g) && Ordered(g) && j <= |g.stages|
    requires ValidRun(g, Plain, run) && Within(g, approve, j, Replay(run))
    ensures ValidRun(g, Plain, end) && Within(g, approve, j, Replay(end)) && DoneBefore(g, Replay(end), Plain, j)
    decreases TurnCeiling(g.stages, g.caps, g.panels, g.RubricEnabled()) - |run|
  {
    var v := Replay(run);
    var k := FirstIncomplete(g, v, Plain, 0);
    if k >= j {
      end := run;
    } else {
      RunIsTyped(g, Plain, run);
      NeverStalls(g, v, Plain);
      assert !JuryBlocked(g, v, Plain);
      var at := PlanOrigin(g, v, Plain);
      assert at == k;
      var sp := PlanRequest(g, v, Plain).value[0];
      PlannedSpec(g, v, Plain, k, sp);
      var o := Uniform(g, approve, sp.slot);
      ExtendRun(g, Plain, run, sp, o);
      UniformLanding(g, approve, j, v, k, sp.slot);
      var next := run + [Landing(sp.slot, o)];
      RunWithinCeiling(g, Plain, next);
      end := ReachStage(g, approve, j, next);
    }
  }

  lemma Uniformly(g: Graph, approve: bool, j: nat) returns (run: seq<Landing>)
    requires Runnable(g) && Ordered(g) && j < |g.stages|
    ensures ValidRun(g, Plain, run) && Within(g, approve, j, Replay(run)) && DoneBefore(g, Replay(run), Plain, j)
  {
    assert ValidRun(g, Plain, []);
    run := ReachStage(g, approve, j, []);
  }

  // --- the landing that reopens -------------------------------------------------------------------------------

  /** A slot only stage `j` fills is still free. */
  lemma StillFree(g: Graph, approve: bool, j: nat, v: View, s: Slot)
    requires NoDuplicates(g.stages) && j < |g.stages| && Within(g, approve, j, v)
    requires forall st :: SlotOfStage(g, st, s) ==> st == g.stages[j]
    ensures s !in v
  {
  }

  lemma {:induction false} AllUndone(v: View, seats: seq<Slot>)
    requires forall s :: s in seats ==> s !in v
    ensures Undone(v, seats) == seats
  {
    if seats != [] {
      AllUndone(v, seats[..|seats| - 1]);
    }
  }

  /** What stage `j` plans may land with any draft. */
  lemma DraftLands(g: Graph, v: View, j: nat, s: Slot, o: TurnOutput)
    requires g.caps.Valid() && j < |g.stages| && DoneBefore(g, v, Plain, j) && o.DraftOutput?
    requires IsComplete(g, v, Plain, g.stages[j]) == Pending && PlanStage(g, v, Plain, g.stages[j]) == Success([s])
    requires s.Draft? || s.Bolster?
    ensures Lands(g, v, Plain, Landing(s, o))
  {
    PlanFromSkips(g, v, Plain, 0, j);
    var sp := Spec(s, g.stages[j], SchemaFor(g.stages[j], s));
    assert SpecsFor(g.stages[j], [s])[0] == sp;
    assert Planned(g, v, Plain, sp);
  }

  /** The landing opens the completed stage `i`, and breaks the completed prefix if `i` comes before `j`. */
  ghost predicate ReopenedBy(g: Graph, run: seq<Landing>, l: Landing, i: nat, j: nat)
    requires i < |g.stages|
  {
    var v := Replay(run);
    && ValidRun(g, Plain, run) && Lands(g, v, Plain, l)
    && IsComplete(g, v, Plain, g.stages[i]) == Done
    && IsComplete(g, v[l.slot := l.output], Plain, g.stages[i]) != Done
    && (i < j ==> !KeepsDone(g, v, Plain, l))
  }

  lemma ReopenedIsNotKept(g: Graph, v: View, l: Landing, i: nat, j: nat)
    requires i < j <= |g.stages| && DoneBefore(g, v, Plain, j)
    requires IsComplete(g, v[l.slot := l.output], Plain, g.stages[i]) != Done
    ensures IsComplete(g, v, Plain, g.stages[i]) == Done && !KeepsDone(g, v, Plain, l)
  {
    assert !DoneBefore(g, v[l.slot := l.output], Plain, j);
  }

  lemma BolsterLands(g: Graph, approve: bool, j: nat, v: View, o: TurnOutput)
    requires Runnable(g) && NoDuplicates(g.stages) && j < |g.stages| && g.stages[j] == BolsterPass
    requires g.caps.bolster >= 1 && Within(g, approve, j, v) && DoneBefore(g, v, Plain, j) && o.DraftOutput?
    ensures Lands(g, v, Plain, Landing(Bolster(1), o))
    ensures forall k: nat :: Bolster(k) !in v
    ensures LatestBolster(g, v[Bolster(1) := o]) == Some(o)
  {
    forall k: nat
      ensures Bolster(k) !in v
    {
      StillFree(g, approve, j, v, Bolster(k));
    }
    var seats := Seats(g, BolsterPass);
    AllUndone(v, seats);
    assert seats[0] == Bolster(1);
    assert !AllIn(v, seats) by {
      assert seats[0] in seats;
    }
    hide Undone, Early, UniformView;
    DraftLands(g, v, j, Bolster(1), o);
    LatestOnly(v[Bolster(1) := o], seats, 0);
  }

  /** Of a list of seats with one filled, the latest is that one. */
  lemma {:induction false} LatestOnly(v: View, seats: seq<Slot>, at: nat)
    requires at < |seats| && seats[at] in v && forall i :: at < i < |seats| ==> seats[i] !in v
    ensures LatestIn(v, seats) == Some(v[seats[at]])
  {
    if at < |seats| - 1 {
      LatestOnly(v, seats[..|seats| - 1], at);
    }
  }

  /** A bolster undoes a convergence. */
  lemma BolsterReopensLoop(g: Graph, i: nat, j: nat) returns (run: seq<Landing>)
    requires Runnable(g) && Ordered(g) && NoDuplicates(g.stages) && i < j < |g.stages|
    requires g.stages[i] == PartnerLoop && g.stages[j] == BolsterPass && g.strategy == AdversarialFirst
    requires g.RubricEnabled() && g.caps.associatePartner >= 3 && g.caps.bolster >= 1
    ensures ReopenedBy(g, run, Landing(Bolster(1), Contested), i, j)
  {
    run := Uniformly(g, false, j);
    var v := Replay(run);
    var l := Landing(Bolster(1), Contested);
    BolsterLands(g, false, j, v, Contested);
    var w := v[Bolster(1) := Contested];
    assert Draft(3) !in v;
    LoopUnsettled(g, v, w);
    ReopenedIsNotKept(g, v, l, i, j);
  }

  lemma LoopUnsettled(g: Graph, v: View, w: View)
    requires UniformView(g, false, v) && w == v[Bolster(1) := Contested] && Draft(3) !in v
    requires g.strategy == AdversarialFirst && g.caps.associatePartner >= 3
    requires LatestBolster(g, w) == Some(Contested)
    ensures SettledFrom(g, w, Plain, 1).None?
  {
    var a, b := RoundInputs(g, w, Plain, 1), RoundInputs(g, w, Plain, 2);
    assert History(g, w, Plain, 0) == [];
    assert History(g, w, Plain, 1) == [a];
    assert History(g, w, Plain, 2) == [a, b];
    assert a.text == "x";
    assert Draft(2) in w ==> b.text == "";
    assert !RoundDone(g, w, 3);
    assert SettledFrom(g, w, Plain, 3).None?;
    assert RoundDone(g, w, 2) ==> !ConvergedAt(g, w, Plain, 2);
    assert SettledFrom(g, w, Plain, 2).None?;
    assert !ConvergedAt(g, w, Plain, 1);
  }

  // --- a contested draft reopens a restructure pass --------------------------------------------------------------

  lemma {:induction false} AllStrike(v: View, n: nat)
    requires forall k: nat :: 1 <= k <= n ==> Judge(k) in v && v[Judge(k)] == JudgeOutput([Strike])
    ensures |JudgeRulings(v, n)| == n && forall k :: 0 <= k < n ==> JudgeRulings(v, n)[k] == [Strike]
  {
    if n > 0 {
      AllStrike(v, n - 1);
    }
  }

  lemma {:induction false} StrikesCount(judges: seq<seq<Panels.Ruling>>)
    requires forall k :: 0 <= k < |judges| ==> judges[k] == [Strike]
    ensures Panels.PanelVotes(Contested.objections, judges, true, 0) == 0
    ensures Panels.PanelVotes(Contested.objections, judges, false, 0) == |judges|
  {
    if judges != [] {
      StrikesCount(judges[..|judges| - 1]);
      Panels.AgreeingListsAlign(Contested.objections, [Strike]);
    }
  }

  /** Once the judges' draft is the contested one, every judge's strike makes its objection weak. */
  lemma ContestedIsWeak(g: Graph, v: View, w: View, i: nat)
    requires g.panels.Valid() && !g.document && JudgedDraft(g, w) == Some(Contested)
    requires forall k: nat :: 1 <= k <= g.panels.judges ==> Judge(k) in w && w[Judge(k)] == JudgeOutput([Strike])
    ensures AnyWeak(g, w, Plain) == Some(true)
  {
    var n := g.panels.judges;
    AllStrike(w, n);
    var judges := JudgeRulings(w, n);
    StruckIsWeak(judges);
    hide Panels.FoldPanel, JudgeRulings, IsWeak, JudgedDraft;
    assert JudgesReadable(g, w);
    assert PanelResults(g, w) == Some(Panels.FoldPanel(Contested.objections, judges));
  }

  lemma StruckIsWeak(judges: seq<seq<Panels.Ruling>>)
    requires judges != [] && forall k :: 0 <= k < |judges| ==> judges[k] == [Strike]
    ensures var results := Panels.FoldPanel(Contested.objections, judges);
      |results| == 1 && IsWeak(results[0], Plain)
  {
    StrikesCount(judges);
    hide Panels.PanelVotes;
    var r := Panels.FoldPanel(Contested.objections, judges)[0];
    assert r.survive == 0 && r.total == |judges|;
    assert r.SurvivalRate() == 0.0;
  }

  /** The stage `j` follows the judges, and a restructure pass sits at `i`, before or after it. */
  predicate Apart(g: Graph, i: nat, j: nat) {
    && i < |g.stages| && j < |g.stages| && i != j && FirstJudging(g.stages[..j]).Some?
    && g.stages[i] == RestructurePass && !g.document && g.caps.restructure >= 1
  }

  lemma RestructureOpens(g: Graph, approve: bool, v: View, u: Slot, i: nat, j: nat)
    requires Runnable(g) && Ordered(g) && Apart(g, i, j) && UniformView(g, approve, v)
    requires (forall s :: s in v ==> !s.Restructure?) && DoneBefore(g, v, Plain, j)
    requires (u.Draft? || u.Bolster?) && JudgedDraft(g, v[u := Contested]) == Some(Contested)
    ensures IsComplete(g, v, Plain, RestructurePass) == Done
    ensures IsComplete(g, v[u := Contested], Plain, RestructurePass) == Pending
  {
    var w := v[u := Contested];
    assert OrderedAt(g, i);
    JudgesStrike(g, approve, v, i, j);
    hide AnyWeak, Ordered, DoneBefore, JudgedDraft, Early, UniformView, PanelResults;
    NeverWeak(g, approve, v, i);
    ContestedIsWeak(g, v, w, i);
    PassUndone(g, w);
  }

  /** A weak objection and an empty restructure seat leave the pass open. */
  lemma PassUndone(g: Graph, w: View)
    requires g.caps.restructure >= 1 && g.caps.Valid() && AllIn(w, Seats(g, JudgePanel))
    requires AnyWeak(g, w, Plain) == Some(true) && forall s :: s in w ==> !s.Restructure?
    ensures IsComplete(g, w, Plain, RestructurePass) == Pending
  {
    hide AnyWeak;
    SeatsAre(g, RestructurePass);
    assert SeatOf(g, RestructurePass, Restructure(1));
  }

  lemma RestructureReopened(g: Graph, run: seq<Landing>, l: Landing, i: nat, j: nat)
    requires j < |g.stages| && Apart(g, i, j) && ValidRun(g, Plain, run) && Lands(g, Replay(run), Plain, l)
    requires DoneBefore(g, Replay(run), Plain, j)
    requires IsComplete(g, Replay(run), Plain, RestructurePass) == Done
    requires IsComplete(g, Replay(run)[l.slot := l.output], Plain, RestructurePass) == Pending
    ensures ReopenedBy(g, run, l, i, j)
  {
    if i < j {
      ReopenedIsNotKept(g, Replay(run), l, i, j);
    }
  }

  /** Past the judges, every judge of a uniform run has struck. */
  lemma JudgesStrike(g: Graph, approve: bool, v: View, i: nat, j: nat)
    requires Runnable(g) && Ordered(g) && Apart(g, i, j) && UniformView(g, approve, v)
    requires DoneBefore(g, v, Plain, j)
    ensures AllIn(v, Seats(g, JudgePanel))
    ensures forall k: nat :: 1 <= k <= g.panels.judges ==> Judge(k) in v && v[Judge(k)] == JudgeOutput([Strike])
  {
    assert OrderedAt(g, i);
    JudgesDone(g, v, Plain, j);
    SeatsAre(g, JudgePanel);
    FirstJudgingPrefix(g.stages, i);
    forall k: nat | 1 <= k <= g.panels.judges
      ensures Judge(k) in v && v[Judge(k)] == JudgeOutput([Strike])
    {
      assert SeatOf(g, JudgePanel, Judge(k));
    }
  }

  lemma BolsterReopensRestructure(g: Graph, i: nat, j: nat) returns (run: seq<Landing>)
    requires Runnable(g) && Ordered(g) && NoDuplicates(g.stages) && Apart(g, i, j)
    requires g.stages[j] == BolsterPass && g.caps.bolster >= 1
    ensures ReopenedBy(g, run, Landing(Bolster(1), Contested), i, j)
  {
    run := Uniformly(g, true, j);
    var v := Replay(run);
    BolsterLands(g, true, j, v, Contested);
    var w := v[Bolster(1) := Contested];
    assert g.strategy == AdversarialFirst ==> forall s :: s in RedraftSeats(g) ==> s !in w;
    RestructureOpens(g, true, v, Bolster(1), i, j);
    RestructureReopened(g, run, Landing(Bolster(1), Contested), i, j);
  }

  lemma NoBolster(g: Graph, approve: bool, j: nat, v: View)
    requires j < |g.stages| && Within(g, approve, j, v) && !Bolstered(g, j)
    ensures forall k: nat :: Bolster(k) !in v
    ensures LatestBolster(g, v).None?
  {
    assert forall e: nat :: e < j ==> g.stages[..j][e] == g.stages[e];
    assert forall e: nat, k: nat :: e < j ==> !SlotOfStage(g, g.stages[e], Bolster(k));
    assert forall k: nat :: Bolster(k) !in v;
    hide Within, UniformView, Early;
    assert forall s :: s in Seats(g, BolsterPass) ==> s.Bolster?;
  }

  lemma FirstDraftReopensRestructure(g: Graph, i: nat, j: nat) returns (run: seq<Landing>)
    requires Runnable(g) && Ordered(g) && NoDuplicates(g.stages) && Apart(g, i, j)
    requires g.stages[j] == AssociateDraft && !Bolstered(g, j)
    ensures ReopenedBy(g, run, Landing(Draft(1), Contested), i, j)
  {
    run := Uniformly(g, true, j);
    var v := Replay(run);
    var w := v[Draft(1) := Contested];
    StillFree(g, true, j, v, Draft(1));
    assert IsComplete(g, v, Plain, AssociateDraft) == Pending by {
      assert Draft(1) in Seats(g, AssociateDraft);
    }
    DraftLands(g, v, j, Draft(1), Contested);
    NoBolster(g, true, j, v);
    NoLaterDraft(g, true, j, v);
    FirstDraftJudged(g, v, w);
    hide Early, Ordered, IsComplete, JudgedDraft, Lands, ValidRun, Bolstered;
    RestructureOpens(g, true, v, Draft(1), i, j);
    RestructureReopened(g, run, Landing(Draft(1), Contested), i, j);
  }

  lemma FirstDraftJudged(g: Graph, v: View, w: View)
    requires g.caps.Valid() && w == v[Draft(1) := Contested]
    requires LatestBolster(g, v).None? && forall r: nat :: r >= 2 ==> Draft(r) !in v
    ensures JudgedDraft(g, w) == Some(Contested)
  {
    BolsterSame(g, v, w, Draft(1));
    LatestOnly(w, DraftSeats(g), 0);
    assert forall s :: s in RedraftSeats(g) ==> s !in w;
  }

  /** Before the first draft there is no later one. */
  lemma NoLaterDraft(g: Graph, approve: bool, j: nat, v: View)
    requires Ordered(g) && NoDuplicates(g.stages) && j < |g.stages| && Within(g, approve, j, v)
    requires g.stages[j] == AssociateDraft || g.stages[j] == PartnerLoop
    ensures forall r: nat :: r >= 2 ==> Draft(r) !in v
    ensures g.stages[j] == PartnerLoop ==> forall s :: s in v ==> !LoopSlot(g, s)
  {
    NoLoopBefore(g, j);
  }

  lemma NoLoopBefore(g: Graph, j: nat)
    requires Ordered(g) && NoDuplicates(g.stages) && j < |g.stages|
    requires g.stages[j] == AssociateDraft || g.stages[j] == PartnerLoop
    ensures forall e: nat :: e < j ==> g.stages[e] != PartnerLoop
  {
    forall e: nat | e < j
      ensures g.stages[e] != PartnerLoop
    {
      assert OrderedAt(g, e);
      assert g.stages[j] !in g.stages[..e];
    }
  }

  // --- a redraft in the partner loop ------------------------------------------------------------------------------

  /** Landing a review keeps the stages before the loop complete, and the view within bounds. */
  lemma ReviewLands(g: Graph, j: nat, run: seq<Landing>, s: Slot) returns (next: seq<Landing>)
    requires Runnable(g) && Ordered(g) && j < |g.stages| && g.stages[j] == PartnerLoop
    requires ValidRun(g, Plain, run) && Within(g, false, j + 1, Replay(run)) && DoneBefore(g, Replay(run), Plain, j)
    requires PlanRounds(g, Replay(run), Plain, 1) == Success([s]) && (s.Critique? || s.RubricLoop?)
    requires IsComplete(g, Replay(run), Plain, PartnerLoop) == Pending && Draft(1) in Replay(run)
    requires NoDuplicates(g.stages)
    ensures ValidRun(g, Plain, next) && Replay(next) == Replay(run)[s := Uniform(g, false, s)]
    ensures Within(g, false, j + 1, Replay(next)) && DoneBefore(g, Replay(next), Plain, j)
    ensures s !in Replay(run)
  {
    var v := Replay(run);
    PlanFromSkips(g, v, Plain, 0, j);
    var sp := Spec(s, PartnerLoop, SchemaFor(PartnerLoop, s));
    assert SpecsFor(PartnerLoop, [s])[0] == sp;
    assert Planned(g, v, Plain, sp);
    assert PlannedAt(g, v, Plain, j);
    PlannedSpec(g, v, Plain, j, sp);
    ExtendRun(g, Plain, run, sp, Uniform(g, false, s));
    next := run + [Landing(s, Uniform(g, false, s))];
    assert [s][0] in PlanStage(g, v, Plain, g.stages[j]).value;
    UniformLanding(g, false, j + 1, v, j, s);
    forall i: nat | i < j
      ensures IsComplete(g, Replay(next), Plain, g.stages[i]) == Done
    {
      assert g.stages[i] != PartnerLoop;
      CompleteStageKept(g, v, Replay(next), Plain, s, g.stages[i]);
    }
  }

  /** The partner loop `j` is in its first round and every stage before it is complete. */
  ghost predicate InFirstRound(g: Graph, j: nat, run: seq<Landing>)
    requires j < |g.stages|
  {
    var v := Replay(run);
    && ValidRun(g, Plain, run) && Within(g, false, j + 1, v) && DoneBefore(g, v, Plain, j) && Draft(1) in v
    && (forall r: nat :: r >= 2 ==> Draft(r) !in v)
    && (!Bolstered(g, j) ==> forall k: nat :: Bolster(k) !in v)
  }

  lemma FirstRoundStarts(g: Graph, j: nat) returns (run: seq<Landing>)
    requires Runnable(g) && Ordered(g) && NoDuplicates(g.stages) && j < |g.stages| && g.stages[j] == PartnerLoop
    ensures InFirstRound(g, j, run) && forall s :: s in Replay(run) ==> !LoopSlot(g, s)
  {
    run := Uniformly(g, false, j);
    var v := Replay(run);
    NoLaterDraft(g, false, j, v);
    FirstDraftIn(g, v, j);
    EarlyGrows(g, j, v);
    if !Bolstered(g, j) {
      NoBolster(g, false, j, v);
    }
  }

  lemma ReviewKeepsRound(g: Graph, j: nat, run: seq<Landing>, s: Slot) returns (next: seq<Landing>)
    requires Runnable(g) && Ordered(g) && NoDuplicates(g.stages) && j < |g.stages| && g.stages[j] == PartnerLoop
    requires InFirstRound(g, j, run) && (s.Critique? || s.RubricLoop?)
    requires PlanRounds(g, Replay(run), Plain, 1) == Success([s])
    requires IsComplete(g, Replay(run), Plain, PartnerLoop) == Pending
    ensures InFirstRound(g, j, next) && Replay(next) == Replay(run)[s := Uniform(g, false, s)]
  {
    next := ReviewLands(g, j, run, s);
  }

  /** The loop's first round, unapproved, up to the point where it plans a second draft. */
  lemma SecondDraftPlanned(g: Graph, j: nat) returns (run: seq<Landing>)
    requires Runnable(g) && Ordered(g) && NoDuplicates(g.stages) && j < |g.stages| && g.stages[j] == PartnerLoop
    requires g.caps.associatePartner >= 2
    ensures InFirstRound(g, j, run)
    ensures PlanRounds(g, Replay(run), Plain, 1) == Success([Draft(2)])
    ensures IsComplete(g, Replay(run), Plain, PartnerLoop) == Pending
  {
    hide PlanRounds, IsComplete, Uniform, Replay, ValidRun, Ordered, DoneBefore, Early;
    run := FirstRoundStarts(g, j);
    assert LoopSlot(g, Critique(1));
    FirstRound(g, Replay(run));
    run := ReviewKeepsRound(g, j, run, Critique(1));
    FirstRound(g, Replay(run));
    if g.RubricEnabled() {
      assert LoopSlot(g, RubricLoop(1));
      run := ReviewKeepsRound(g, j, run, RubricLoop(1));
      FirstRound(g, Replay(run));
    }
  }

  lemma EarlyGrows(g: Graph, j: nat, v: View)
    requires Within(g, false, j, v)
    ensures Within(g, false, j + 1, v)
  {
  }

  lemma FirstDraftIn(g: Graph, v: View, j: nat)
    requires Ordered(g) && j < |g.stages| && g.stages[j] == PartnerLoop && DoneBefore(g, v, Plain, j)
    ensures Draft(1) in v
  {
    assert OrderedAt(g, j);
    var a :| 0 <= a < j && g.stages[..j][a] == AssociateDraft;
    assert IsComplete(g, v, Plain, g.stages[a]) == Done;
    assert Draft(1) in Seats(g, AssociateDraft);
  }

  /** What an unapproved first round plans next. */
  lemma FirstRound(g: Graph, v: View)
    requires UniformView(g, false, v) && Draft(1) in v && Draft(2) !in v && g.caps.associatePartner >= 2
    ensures PlanRounds(g, v, Plain, 1)
         == if Critique(1) !in v then Success([Critique(1)])
            else if g.RubricEnabled() && RubricLoop(1) !in v then Success([RubricLoop(1)])
            else Success([Draft(2)])
    ensures IsComplete(g, v, Plain, PartnerLoop) == Pending
  {
    var a := RoundInputs(g, v, Plain, 1);
    assert History(g, v, Plain, 0) == [];
    assert History(g, v, Plain, 1) == [a];
    assert !ConvergedAt(g, v, Plain, 1);
    assert Critique(1) in v ==> !Approved(v, 1);
    assert !Settles(g, v, Plain, 1);
    assert !RoundDone(g, v, 2);
    assert SettledFrom(g, v, Plain, 2).None?;
  }

  lemma RedraftReopensRestructure(g: Graph, i: nat, j: nat) returns (run: seq<Landing>)
    requires Runnable(g) && Ordered(g) && NoDuplicates(g.stages) && Apart(g, i, j)
    requires g.stages[j] == PartnerLoop && g.caps.associatePartner >= 2
    requires g.strategy == AdversarialFirst || !Bolstered(g, j)
    ensures ReopenedBy(g, run, Landing(Draft(2), Contested), i, j)
  {
    run := SecondDraftPlanned(g, j);
    var v := Replay(run);
    var w := v[Draft(2) := Contested];
    DraftLands(g, v, j, Draft(2), Contested);
    SecondDraftJudged(g, v, w);
    RestructureOpens(g, false, v, Draft(2), i, j);
    RestructureReopened(g, run, Landing(Draft(2), Contested), i, j);
  }

  lemma SecondDraftJudged(g: Graph, v: View, w: View)
    requires g.caps.associatePartner >= 2 && w == v[Draft(2) := Contested]
    requires forall r: nat :: r >= 2 ==> Draft(r) !in v
    requires g.strategy == AdversarialFirst || forall k: nat :: Bolster(k) !in v
    ensures JudgedDraft(g, w) == Some(Contested)
  {
    LatestOnly(w, DraftSeats(g), 1);
    LatestOnly(w, RedraftSeats(g), 0);
    if g.strategy != AdversarialFirst {
      assert forall s :: s in Seats(g, BolsterPass) ==> s.Bolster?;
    }
  }

  // --- exactly ----------------------------------------------------------------------------------------------

  lemma ReopeningPairReopens(g: Graph, i: nat, j: nat) returns (run: seq<Landing>, l: Landing)
    requires Runnable(g) && Ordered(g) && NoDuplicates(g.stages) && i < |g.stages| && j < |g.stages|
    requires Reopens(g, i, j)
    ensures ReopenedBy(g, run, l, i, j)
  {
    if g.stages[i] == PartnerLoop {
      l := Landing(Bolster(1), Contested);
      run := BolsterReopensLoop(g, i, j);
    } else if g.stages[j] == BolsterPass {
      l := Landing(Bolster(1), Contested);
      run := BolsterReopensRestructure(g, i, j);
    } else if g.stages[j] == AssociateDraft {
      l := Landing(Draft(1), Contested);
      run := FirstDraftReopensRestructure(g, i, j);
    } else {
      l := Landing(Draft(2), Contested);
      run := RedraftReopensRestructure(g, i, j);
    }
  }

  /** On an ordered graph, a completed prefix of the stages stays complete in every run exactly when no
      stage is followed by one that can reopen it. */
  lemma StaysCompleteIffSettled(g: Graph)
    requires Runnable(g) && GraphOk(g.stages) && Ordered(g)
    ensures StaysComplete(g) <==> Settled(g)
  {
    if Settled(g) {
      SettledGraphsStay(g);
    } else {
      var i: nat, j: nat :| i < j < |g.stages| && Reopens(g, i, j);
      var run, l := ReopeningPairReopens(g, i, j);
      assert ValidRun(g, Plain, run) && Lands(g, Replay(run), Plain, l) && !KeepsDone(g, Replay(run), Plain, l);
    }
  }

  // --- a stage complete ahead of its turn -------------------------------------------------------------------

  ghost predicate StageReached(g: Graph, v: View, q: Assessment, s: Slot, k: nat) {
    k < |g.stages| && SlotOfStage(g, g.stages[k], s) && DoneBefore(g, v, q, k)
  }

  /** Every filled slot belongs to a stage the request has reached. */
  ghost predicate Reached(g: Graph, v: View, q: Assessment) {
    forall s :: s in v ==> exists k: nat :: StageReached(g, v, q, s, k)
  }

  lemma {:induction false} RunsReach(g: Graph, q: Assessment, run: seq<Landing>)
    requires Runnable(g) && Ordered(g) && Settled(g) && ValidRun(g, q, run)
    ensures Reached(g, Replay(run), q)
  {
    if run != [] {
      var front, l := run[..|run| - 1], run[|run| - 1];
      RunsReach(g, q, front);
      RunIsTyped(g, q, front);
      LandingReaches(g, Replay(front), q, l);
    }
  }

  lemma LandingReaches(g: Graph, v: View, q: Assessment, l: Landing)
    requires Runnable(g) && Ordered(g) && Settled(g) && Typed(g, v) && Lands(g, v, q, l) && Reached(g, v, q)
    ensures Reached(g, v[l.slot := l.output], q)
  {
    var w := v[l.slot := l.output];
    LandingKeepsDone(g, v, q, l);
    var k := LandingIsNew(g, v, q, l);
    assert StageReached(g, v, q, l.slot, k);
    hide Ordered, Settled, Lands, Typed, IsComplete, DoneBefore;
    forall s | s in w
      ensures exists m: nat :: StageReached(g, w, q, s, m)
    {
      if s == l.slot {
        StageStillReached(g, v, q, l, s, k);
      } else {
        var m: nat :| StageReached(g, v, q, s, m);
        StageStillReached(g, v, q, l, s, m);
      }
    }
  }

  lemma StageStillReached(g: Graph, v: View, q: Assessment, l: Landing, s: Slot, k: nat)
    requires KeepsDone(g, v, q, l) && StageReached(g, v, q, s, k)
    ensures StageReached(g, v[l.slot := l.output], q, s, k)
  {
  }

  /** What a planned turn of stage `k` finds filled belongs to stages before `k` or to `k` itself. */
  lemma NoFurther(g: Graph, v: View, q: Assessment, s: Slot, k: nat) returns (m: nat)
    requires Reached(g, v, q) && s in v && PlannedAt(g, v, q, k)
    ensures m <= k && SlotOfStage(g, g.stages[m], s)
  {
    m :| StageReached(g, v, q, s, m);
    assert IsComplete(g, v, q, g.stages[k]) != Done;
  }

  lemma LoopStays(g: Graph, v: View, w: View, q: Assessment, u: Slot, i: nat, k: nat)
    requires g.caps.Valid() && SameBut(v, w, u) && u !in v && u in w && g.SlotSizes().Has(u)
    requires NoDuplicates(g.stages) && Reached(g, v, q)
    requires i < |g.stages| && PlannedAt(g, v, q, k) && SlotOfStage(g, g.stages[k], u)
    requires g.stages[i] == PartnerLoop && IsComplete(g, v, q, PartnerLoop) == Done && !Reopens(g, i, k)
    ensures IsComplete(g, w, q, PartnerLoop) == Done
  {
    LoopReached(g, v, q, i, k);
    hide Reached, SameBut, DoneBefore, SettledFrom, NoDuplicates;
    PartnerStays(g, v, w, q, u, i, k);
  }

  /** A settled partner loop comes before whatever is planned. */
  lemma LoopReached(g: Graph, v: View, q: Assessment, i: nat, k: nat)
    requires NoDuplicates(g.stages) && Reached(g, v, q) && i < |g.stages| && PlannedAt(g, v, q, k)
    requires g.stages[i] == PartnerLoop && IsComplete(g, v, q, PartnerLoop) == Done
    ensures i < k
  {
    assert RoundDone(g, v, 1);
    hide SettledFrom, PlanStage, PlanRequest;
    var m := NoFurther(g, v, q, Critique(1), k);
    assert g.stages[m] == PartnerLoop;
  }

  lemma JudgeSeatIsJudging(g: Graph, st: Stage)
    requires SlotOfStage(g, st, Judge(1))
    ensures Judging(st)
  {
  }

  /** If the judges are in and stage `k` plans something else, a judging stage comes before it. */
  lemma JudgesReached(g: Graph, v: View, q: Assessment, k: nat)
    requires Runnable(g) && Reached(g, v, q) && PlannedAt(g, v, q, k)
    requires AllIn(v, Seats(g, JudgePanel)) && !Judging(g.stages[k])
    ensures FirstJudging(g.stages[..k]).Some?
  {
    SeatsAre(g, JudgePanel);
    assert SeatOf(g, JudgePanel, Judge(1));
    assert Judge(1) in v && k < |g.stages|;
    hide IsComplete, PlanStage, PlanRequest, DoneBefore, Reached, PlannedAt, SlotOfStage, Seats, FirstJudging;
    var m := NoFurther(g, v, q, Judge(1), k);
    JudgeSeatIsJudging(g, g.stages[m]);
    assert m != k;
    assert g.stages[..k][m] == g.stages[m];
    FirstJudgingPrefix(g.stages[..k], 0);
  }

  lemma PassStays(g: Graph, v: View, w: View, q: Assessment, u: Slot, i: nat, k: nat)
    requires Runnable(g) && SameBut(v, w, u) && u !in v && u in w && g.SlotSizes().Has(u) && Typed(g, w)
    requires Reached(g, v, q) && i < |g.stages| && OrderedAt(g, i)
    requires PlannedAt(g, v, q, k) && SlotOfStage(g, g.stages[k], u)
    requires g.stages[i] == RestructurePass && IsComplete(g, v, q, RestructurePass) == Done && !Reopens(g, i, k)
    ensures IsComplete(g, w, q, RestructurePass) == Done
  {
    if StageNeutral(g, RestructurePass, u) {
      CompleteStageKept(g, v, w, q, u, RestructurePass);
    } else {
      JudgesReached(g, v, q, k);
      hide StageNeutral, Reached, PlannedAt;
      RestructureStays(g, v, w, q, u, i, k);
    }
  }

  lemma LandingKeepsStages(g: Graph, v: View, q: Assessment, l: Landing)
    requires Runnable(g) && NoDuplicates(g.stages) && Ordered(g) && FullySettled(g)
    requires Typed(g, v) && Lands(g, v, q, l) && Reached(g, v, q)
    ensures KeepsStages(g, v, q, l)
  {
    var k := LandingIsNew(g, v, q, l);
    var u := l.slot;
    var w := v[u := l.output];
    assert SameBut(v, w, u);
    forall i: nat | i < |g.stages| && IsComplete(g, v, q, g.stages[i]) == Done
      ensures IsComplete(g, w, q, g.stages[i]) == Done
    {
      assert OrderedAt(g, i) && !Reopens(g, i, k);
      if g.stages[i] == PartnerLoop {
        LoopStays(g, v, w, q, u, i, k);
      } else if g.stages[i] == RestructurePass {
        PassStays(g, v, w, q, u, i, k);
      } else {
        CompleteStageKept(g, v, w, q, u, g.stages[i]);
      }
    }
  }

  /** On an ordered graph, every completed stage, even one complete ahead of its turn, stays complete in
      every run exactly when no stage can be reopened by any other. */
  lemma StagesStayIffFullySettled(g: Graph)
    requires Runnable(g) && GraphOk(g.stages) && Ordered(g)
    ensures StagesStay(g) <==> FullySettled(g)
  {
    if FullySettled(g) {
      forall q: Assessment, run: seq<Landing>, l: Landing | ValidRun(g, q, run) && Lands(g, Replay(run), q, l)
        ensures KeepsStages(g, Replay(run), q, l)
      {
        RunIsTyped(g, q, run);
        RunsReach(g, q, run);
        LandingKeepsStages(g, Replay(run), q, l);
      }
    } else {
      var i: nat, j: nat :| i < |g.stages| && j < |g.stages| && Reopens(g, i, j);
      var run, l := ReopeningPairReopens(g, i, j);
      assert ValidRun(g, Plain, run) && Lands(g, Replay(run), Plain, l);
      assert !KeepsStages(g, Replay(run), Plain, l);
    }
  }

  /** The two differ: on this graph completed prefixes stay complete, and a restructure pass that is
      complete ahead of its turn does not. */
  lemma AheadOfItsTurn(g: Graph)
    requires Runnable(g) && !g.document && g.caps.restructure >= 1 && g.caps.bolster >= 1
    requires g.stages == [AssociateDraft, JudgePanel, OcAttack, BolsterPass, RestructurePass, Assemble]
    ensures StaysComplete(g) && !StagesStay(g)
  {
    JudgedByThen(g);
    assert Reopens(g, 4, 3);
    hide IsComplete, ValidRun, Lands, KeepsDone, KeepsStages;
    StaysCompleteIffSettled(g);
    StagesStayIffFullySettled(g);
  }

  lemma JudgedByThen(g: Graph)
    requires g.stages == [AssociateDraft, JudgePanel, OcAttack, BolsterPass, RestructurePass, Assemble]
    requires g.caps.bolster >= 1 && !g.document
    ensures Ordered(g) && Settled(g) && Redrafts(g, 3) && FirstJudging(g.stages[..3]).Some?
  {
    FirstJudges(g);
    hide FirstJudging;
  }

  lemma FirstJudges(g: Graph)
    requires g.stages == [AssociateDraft, JudgePanel, OcAttack, BolsterPass, RestructurePass, Assemble]
    ensures FirstJudging(g.stages[..3]) == Some(JudgePanel) == FirstJudging(g.stages[..4])
  {
    assert g.stages[..2][..1] == [AssociateDraft] && g.stages[..2][1] == JudgePanel;
    assert [AssociateDraft][..0] == [];
    assert FirstJudging([AssociateDraft]) == None;
    assert FirstJudging(g.stages[..2]) == Some(JudgePanel);
    assert g.stages[..4][..2] == g.stages[..2] && g.stages[..3][..2] == g.stages[..2];
    FirstJudgingPrefix(g.stages[..3], 2);
    FirstJudgingPrefix(g.stages[..4], 2);
  }
}
