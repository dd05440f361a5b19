/** What every single durable write keeps. A crash can follow any write, so an invariant every write
    keeps holds in every state a run can be found in (src/mootloop/orchestrator.py). */
module EngineSafety {
  import opened Wrappers
  import opened Layout
  import opened Stages
  import opened Journal
  import opened Decisions
  import opened Engine
  import Planner
  import PlannerRuns

  // --- turns -----------------------------------------------------------------------------------------------

  ghost predicate PlannedTurn(cfg: Config, completed: map<string, TurnRecord>, t: Turn) {
    t.index < |cfg.units| && Planner.Planned(cfg.graph, ViewOf(cfg, completed, t.index), cfg.assess(t.index), t.spec)
  }

  lemma PlannedIsNew(cfg: Config, completed: map<string, TurnRecord>, t: Turn)
    requires cfg.graph.caps.Valid() && PlannedTurn(cfg, completed, t)
    ensures cfg.Z().Has(t.spec.slot) && cfg.Id(t.index, t.spec.slot) !in completed
    ensures t.spec.schema == Planner.SchemaOf(cfg.graph, t.spec.slot)
    ensures !UnitComplete(cfg, completed, t.index)
  {
    var v := ViewOf(cfg, completed, t.index);
    Planner.PlanIsNew(cfg.graph, v, cfg.assess(t.index));
    var _ := Planner.PlanOrigin(cfg.graph, v, cfg.assess(t.index));
    SlotsAreHas(cfg.Z());
  }

  lemma {:induction false} PlanUnitsMembers(cfg: Config, completed: map<string, TurnRecord>, n: nat)
    requires n <= |cfg.units| && PlanUnits(cfg, completed, n).Success?
    ensures forall t :: t in PlanUnits(cfg, completed, n).value <==> t.index < n && PlannedTurn(cfg, completed, t)
    ensures forall i: nat :: i < n ==> PlanUnit(cfg, completed, i).Success?
  {
    hide ViewOf, PlanRequest;
    if n > 0 {
      PlanUnitsMembers(cfg, completed, n - 1);
    }
  }

  /** Completing a turn changes its own request's view at its own slot and no other. */
  lemma ViewAfter(cfg: Config, completed: map<string, TurnRecord>, i: nat, s: Slot, r: TurnRecord, j: nat)
    requires cfg.Z().Has(s)
    ensures ViewOf(cfg, completed[cfg.Id(i, s) := r], j)
         == if j == i then ViewOf(cfg, completed, j)[s := r.output] else ViewOf(cfg, completed, j)
  {
    SlotsAreHas(cfg.Z());
    forall x | cfg.Z().Has(x) && cfg.Id(j, x) == cfg.Id(i, s)
      ensures j == i && x == s
    {
      TurnIdsDistinct(cfg.runId, cfg.Z(), j, x, i, s);
    }
  }

  // --- citation checks ------------------------------------------------------------------------------------

  predicate IsCheckId(cfg: Config, id: string) {
    cfg.runId + "-cite-" <= id
  }

  ghost predicate IsCheckTurn(cfg: Config, r: TurnRecord) {
    IsCheckId(cfg, r.turnId) && r.stage == CitationProposition && r.schema == CiteCheckSchema
  }

  /** No citation check is a slot of the graph. */
  lemma CheckIsNoSlot(cfg: Config, id: string, i: nat, s: Slot)
    requires IsCheckId(cfg, id) && cfg.Z().Has(s)
    ensures cfg.Id(i, s) != id
  {
    var k := |cfg.runId| + 1;
    var prefix := cfg.runId + "-cite-";
    assert prefix[k] == 'c' && k < |prefix|;
    assert id[k] == prefix[k];
    assert (cfg.runId + "-t")[k] == 't';
    assert cfg.Id(i, s)[k] == 't';
  }

  /** Completing a citation check changes no request's view. */
  lemma CheckKeepsView(cfg: Config, completed: map<string, TurnRecord>, r: TurnRecord, i: nat)
    requires IsCheckId(cfg, r.turnId)
    ensures ViewOf(cfg, completed[r.turnId := r], i) == ViewOf(cfg, completed, i)
  {
    forall s | cfg.Z().Has(s)
      ensures cfg.Id(i, s) != r.turnId
    {
      CheckIsNoSlot(cfg, r.turnId, i, s);
    }
  }

  // --- the invariant ------------------------------------------------------------------------------------------

  ghost predicate BodiesMatch(sys: Sys) {
    var c := sys.State().completed;
    forall id :: id in c ==> id in sys.bodies && sys.bodies[id] == c[id]
  }

  ghost predicate CompletedOnce(sys: Sys) {
    forall id: string :: Completions(sys.journal, id) <= 1
  }

  ghost predicate SlotNamed(cfg: Config, id: string, i: nat, s: Slot) {
    i < |cfg.units| && cfg.Z().Has(s) && cfg.Id(i, s) == id
  }

  ghost predicate Located(cfg: Config, id: string) {
    exists i: nat, s: Slot :: SlotNamed(cfg, id, i, s)
  }

  ghost predicate RunOf(cfg: Config, i: nat, v: View) {
    exists run :: PlannerRuns.ValidRun(cfg.graph, cfg.assess(i), run) && PlannerRuns.Replay(run) == v
  }

  /** Each request's completed turns are a run of its planner, and the only other completed turns are
      citation checks. */
  ghost predicate PlannedOnly(cfg: Config, sys: Sys) {
    PlannedOnlyIn(cfg, sys.State().completed)
  }

  ghost predicate PlannedOnlyIn(cfg: Config, c: map<string, TurnRecord>) {
    && (forall id :: id in c ==> Located(cfg, id) || IsCheckId(cfg, id))
    && (forall i: nat :: i < |cfg.units| ==> RunOf(cfg, i, ViewOf(cfg, c, i)))
  }

  /** Every gate a completed draft implies is in the store. */
  ghost predicate GatesKnown(cfg: Config, sys: Sys) {
    GatesIn(cfg, sys.State().completed, Keys(sys.log))
  }

  ghost predicate GatesIn(cfg: Config, completed: map<string, TurnRecord>, keys: set<(Kind, string)>) {
    forall id :: id in completed ==> ProposalKeys(ProposalsOf(cfg, completed[id])) <= keys
  }

  /** `good` holds the provider calls whose result is always accepted. */
  ghost predicate ChargedOnce(good: set<(string, string)>, sys: Sys) {
    forall c :: c in good ==> SpendsOf(sys.journal, c.0, c.1) <= 1
  }

  ghost predicate NoHardHuman(cfg: Config, log: Log) {
    !OpenKind(log, cfg.hardHuman)
  }

  ghost predicate Settled(cfg: Config, sys: Sys) {
    AllComplete(cfg, sys.State().completed) && GatesKnown(cfg, sys) && NoHardHuman(cfg, sys.log)
  }

  ghost predicate FinishSafe(cfg: Config, sys: Sys) {
    RunFinished(Finished) in sys.journal ==> Settled(cfg, sys)
  }

  /** A journaled resolution is the one in the store. */
  ghost predicate ResolutionsMatch(sys: Sys) {
    forall id: nat :: LastRecorded(sys.journal, id).Some? ==> Recorded(sys, id)
  }

  ghost predicate Recorded(sys: Sys, id: nat) {
    var d := Latest(sys.log, id);
    && d.Some? && d.value.status != Open && d.value.resolution.Some?
    && LastRecorded(sys.journal, id) == Some(RecordedFor(id, d.value.resolution.value))
  }

  function TimesRecorded(journal: seq<Event>, id: nat): nat {
    if journal == [] then 0
    else
      var e := journal[|journal| - 1];
      TimesRecorded(journal[..|journal| - 1], id) + if e.DecisionRecorded? && e.decisionId == id then 1 else 0
  }

  ghost predicate RecordedOnce(sys: Sys) {
    forall id: nat :: TimesRecorded(sys.journal, id) == if LastRecorded(sys.journal, id).Some? then 1 else 0
  }

  ghost predicate Inv(cfg: Config, good: set<(string, string)>, sys: Sys) {
    && BodiesMatch(sys) && CompletedOnce(sys) && PlannedOnly(cfg, sys) && LogOk(sys.log)
    && GatesKnown(cfg, sys) && ChargedOnce(good, sys) && FinishSafe(cfg, sys) && ResolutionsMatch(sys)
    && RecordedOnce(sys)
  }

  // --- when a write may happen -----------------------------------------------------------------------------------

  ghost predicate CompletesPlanned(cfg: Config, sys: Sys, r: TurnRecord, t: Turn) {
    && PlannedTurn(cfg, sys.State().completed, t) && Names(cfg, t, r.turnId)
    && Conforms(r.output, t.spec.schema)
  }

  /** A turn of the graph is completed only while the run is running. */
  ghost predicate CompletesSome(cfg: Config, sys: Sys, r: TurnRecord) {
    sys.State().status == Running && exists t: Turn :: CompletesPlanned(cfg, sys, r, t)
  }

  ghost predicate AllowsEvent(cfg: Config, good: set<(string, string)>, sys: Sys, e: Event) {
    && StatusAllows(sys.State(), e)
    && (e.RunStarted? <==> sys.journal == [])
    && match e
       case TurnCompleted(r) =>
         && r.turnId !in sys.State().completed
         && (CompletesSome(cfg, sys, r) || IsCheckTurn(cfg, r))
         && r.turnId in sys.bodies && sys.bodies[r.turnId] == r
         && ProposalKeys(ProposalsOf(cfg, r)) <= Keys(sys.log)
       case SpendRecorded(id, _, _, call) =>
         call.Some? && (id, call.value) in good ==> SpendsOf(sys.journal, id, call.value) == 0
       case RunFinished(to) => to == Finished ==> Settled(cfg, sys)
       case DecisionRecorded(id, _, _, _, _) =>
         && LastRecorded(sys.journal, id).None?
         && Latest(sys.log, id).Some? && Latest(sys.log, id).value.status != Open
         && Latest(sys.log, id).value.resolution.Some?
         && e == RecordedFor(id, Latest(sys.log, id).value.resolution.value)
       case _ => true
  }

  /** Work remains and the run is running. */
  ghost predicate Live(cfg: Config, sys: Sys) {
    sys.State().status == Running && !AllComplete(cfg, sys.State().completed)
  }

  ghost predicate Implied(cfg: Config, sys: Sys, p: Proposal) {
    var c := sys.State().completed;
    Live(cfg, sys) || exists id :: id in c && p in ProposalsOf(cfg, c[id])
  }

  ghost predicate Allows(cfg: Config, good: set<(string, string)>, sys: Sys, w: Write) {
    match w
    case J(e) => AllowsEvent(cfg, good, sys, e)
    case B(r) => sys.journal != [] && r.turnId !in sys.bodies
    case D(d) => sys.journal != [] && OkAppend(sys.log, d) && (d.status == Open ==> Implied(cfg, sys, d.proposal))
  }

  // --- every allowed write keeps the invariant ----------------------------------------------------------------------

  lemma StateAfter(sys: Sys, w: Write)
    ensures ApplyWrite(sys, w).State() == if w.J? then Apply(sys.State(), w.event) else sys.State()
  {
    if w.J? {
      FoldAppend(sys.journal, w.event);
    }
  }

  function CompletedAfter(c: map<string, TurnRecord>, w: Write): map<string, TurnRecord> {
    if w.J? && w.event.TurnCompleted? then c[w.event.record.turnId := w.event.record] else c
  }

  lemma CompletedChange(sys: Sys, w: Write)
    ensures ApplyWrite(sys, w).State().completed == CompletedAfter(sys.State().completed, w)
  {
    StateAfter(sys, w);
  }

  lemma AppendJournal(sys: Sys, e: Event)
    ensures (sys.journal + [e])[..|sys.journal|] == sys.journal
  {
  }

  lemma KeepsBodies(cfg: Config, good: set<(string, string)>, sys: Sys, w: Write)
    requires BodiesMatch(sys) && Allows(cfg, good, sys, w)
    ensures BodiesMatch(ApplyWrite(sys, w))
  {
    CompletedChange(sys, w);
  }

  lemma KeepsOnce(cfg: Config, good: set<(string, string)>, sys: Sys, w: Write)
    requires CompletedOnce(sys) && Allows(cfg, good, sys, w) && cfg.graph.caps.Valid()
    ensures CompletedOnce(ApplyWrite(sys, w))
  {
    if w.J? {
      AppendJournal(sys, w.event);
      if w.event.TurnCompleted? {
        CompletedIffCompletion(sys.journal, w.event.record.turnId);
      }
    }
  }

  lemma RunGrows(cfg: Config, sys: Sys, r: TurnRecord, t: Turn, i: nat)
    requires cfg.graph.caps.Valid() && CompletesPlanned(cfg, sys, r, t)
    requires RunOf(cfg, i, ViewOf(cfg, sys.State().completed, i))
    ensures RunOf(cfg, i, ViewOf(cfg, sys.State().completed[r.turnId := r], i))
  {
    var c := sys.State().completed;
    ViewAfter(cfg, c, t.index, t.spec.slot, r, i);
    hide ViewOf;
    if i == t.index {
      var run :| PlannerRuns.ValidRun(cfg.graph, cfg.assess(i), run) && PlannerRuns.Replay(run) == ViewOf(cfg, c, i);
      PlannerRuns.ExtendRun(cfg.graph, cfg.assess(i), run, t.spec, r.output);
    }
  }

  lemma CompletionIsPlanned(cfg: Config, sys: Sys, r: TurnRecord, t: Turn)
    requires cfg.graph.caps.Valid() && PlannedOnly(cfg, sys) && CompletesPlanned(cfg, sys, r, t)
    ensures PlannedOnlyIn(cfg, sys.State().completed[r.turnId := r])
  {
    assert SlotNamed(cfg, r.turnId, t.index, t.spec.slot);
    var later := sys.State().completed[r.turnId := r];
    forall i: nat | i < |cfg.units|
      ensures RunOf(cfg, i, ViewOf(cfg, later, i))
    {
      RunGrows(cfg, sys, r, t, i);
    }
  }

  lemma KeepsPlanned(cfg: Config, good: set<(string, string)>, sys: Sys, w: Write)
    requires PlannedOnly(cfg, sys) && Allows(cfg, good, sys, w) && cfg.graph.caps.Valid()
    ensures PlannedOnly(cfg, ApplyWrite(sys, w))
  {
    CompletedChange(sys, w);
    if w.J? && w.event.TurnCompleted? {
      if CompletesSome(cfg, sys, w.event.record) {
        var t: Turn :| CompletesPlanned(cfg, sys, w.event.record, t);
        CompletionIsPlanned(cfg, sys, w.event.record, t);
      } else {
        CheckIsPlanned(cfg, sys, w.event.record);
      }
    }
  }

  lemma CheckIsPlanned(cfg: Config, sys: Sys, r: TurnRecord)
    requires PlannedOnly(cfg, sys) && IsCheckId(cfg, r.turnId)
    ensures PlannedOnlyIn(cfg, sys.State().completed[r.turnId := r])
  {
    var later := sys.State().completed[r.turnId := r];
    forall i: nat | i < |cfg.units|
      ensures RunOf(cfg, i, ViewOf(cfg, later, i))
    {
      CheckKeepsView(cfg, sys.State().completed, r, i);
    }
  }

  lemma AppendKeepsKeys(log: Log, d: Decision)
    requires LogOk(log) && OkAppend(log, d)
    ensures LogOk(log + [d]) && Keys(log) <= Keys(log + [d])
  {
    LogOkAppend(log, d);
  }

  lemma GatesMore(cfg: Config, c: map<string, TurnRecord>, keys: set<(Kind, string)>, more: set<(Kind, string)>)
    requires GatesIn(cfg, c, keys) && keys <= more
    ensures GatesIn(cfg, c, more)
  {
  }

  lemma KeepsGates(cfg: Config, good: set<(string, string)>, sys: Sys, w: Write)
    requires GatesKnown(cfg, sys) && LogOk(sys.log) && Allows(cfg, good, sys, w)
    ensures GatesKnown(cfg, ApplyWrite(sys, w)) && LogOk(ApplyWrite(sys, w).log)
  {
    CompletedChange(sys, w);
    if w.D? {
      AppendKeepsKeys(sys.log, w.decision);
      GatesMore(cfg, sys.State().completed, Keys(sys.log), Keys(sys.log + [w.decision]));
    }
  }

  lemma KeepsCharges(cfg: Config, good: set<(string, string)>, sys: Sys, w: Write)
    requires ChargedOnce(good, sys) && Allows(cfg, good, sys, w)
    ensures ChargedOnce(good, ApplyWrite(sys, w))
  {
    if w.J? {
      AppendJournal(sys, w.event);
    }
  }

  lemma KeepsResolutions(cfg: Config, good: set<(string, string)>, sys: Sys, w: Write)
    requires ResolutionsMatch(sys) && LogOk(sys.log) && Allows(cfg, good, sys, w)
    ensures ResolutionsMatch(ApplyWrite(sys, w))
  {
    if w.J? {
      EventKeepsResolutions(sys, w.event);
    } else if w.D? {
      AppendKeepsResolutions(sys, w.decision);
    }
  }

  lemma LastRecordedAfter(journal: seq<Event>, e: Event, id: nat)
    ensures LastRecorded(journal + [e], id)
         == if e.DecisionRecorded? && e.decisionId == id then Some(e) else LastRecorded(journal, id)
  {
    assert (journal + [e])[..|journal|] == journal;
  }

  /** What a journaled resolution must be. */
  predicate Resolves(log: Log, e: Event) {
    e.DecisionRecorded? ==>
      var d := Latest(log, e.decisionId);
      && d.Some? && d.value.status != Open && d.value.resolution.Some?
      && e == RecordedFor(e.decisionId, d.value.resolution.value)
  }

  lemma EventKeepsResolutions(sys: Sys, e: Event)
    requires ResolutionsMatch(sys) && Resolves(sys.log, e)
    ensures ResolutionsMatch(sys.(journal := sys.journal + [e]))
  {
    hide LastRecorded, Latest, RecordedFor;
    var next := sys.(journal := sys.journal + [e]);
    forall id: nat | LastRecorded(next.journal, id).Some?
      ensures Recorded(next, id)
    {
      LastRecordedAfter(sys.journal, e, id);
      assert LastRecorded(sys.journal, id).Some? ==> Recorded(sys, id);
    }
  }

  lemma AppendKeepsResolutions(sys: Sys, d: Decision)
    requires ResolutionsMatch(sys) && LogOk(sys.log) && OkAppend(sys.log, d)
    ensures ResolutionsMatch(sys.(log := sys.log + [d]))
  {
    LogOkAppend(sys.log, d);
    LogShape(sys.log, d.id);
    assert forall id: nat :: LastRecorded(sys.journal, id).Some? ==> Recorded(sys, id);
  }

  lemma KeepsRecordedOnce(cfg: Config, good: set<(string, string)>, sys: Sys, w: Write)
    requires RecordedOnce(sys) && Allows(cfg, good, sys, w)
    ensures RecordedOnce(ApplyWrite(sys, w))
  {
    if w.J? {
      AppendJournal(sys, w.event);
    }
  }

  lemma OpenKindAfter(log: Log, d: Decision, which: Kind -> bool)
    requires LogOk(log) && OkAppend(log, d) && !OpenKind(log, which)
    requires d.status == Open ==> !which(d.proposal.kind)
    ensures !OpenKind(log + [d], which)
  {
    LogOkAppend(log, d);
    forall id: nat | id < Count(log + [d]) && IsOpen(log + [d], id)
      ensures !which(Latest(log + [d], id).value.proposal.kind)
    {
      LogShape(log, id);
      assert id == d.id || IsOpen(log, id);
    }
  }

  /** Every gate that a settled run still implies is already in its store. */
  lemma SettledKnows(cfg: Config, sys: Sys)
    requires Settled(cfg, sys)
    ensures forall p :: Implied(cfg, sys, p) ==> p.Key() in Keys(sys.log)
  {
    var c := sys.State().completed;
    forall p | Implied(cfg, sys, p)
      ensures p.Key() in Keys(sys.log)
    {
      var id :| id in c && p in ProposalsOf(cfg, c[id]);
      assert p.Key() in ProposalKeys(ProposalsOf(cfg, c[id]));
    }
  }

  lemma CheckKeepsComplete(cfg: Config, completed: map<string, TurnRecord>, r: TurnRecord)
    requires IsCheckId(cfg, r.turnId) && AllComplete(cfg, completed)
    ensures AllComplete(cfg, completed[r.turnId := r])
  {
    var later := completed[r.turnId := r];
    forall i: nat | i < |cfg.units|
      ensures UnitComplete(cfg, later, i)
    {
      CheckKeepsView(cfg, completed, r, i);
      assert UnitComplete(cfg, completed, i);
    }
  }

  /** On a settled run only citation checks still complete. */
  lemma SettledCompletesNone(cfg: Config, sys: Sys, r: TurnRecord)
    requires cfg.graph.caps.Valid() && Settled(cfg, sys)
    ensures !CompletesSome(cfg, sys, r)
  {
    forall t: Turn
      ensures !CompletesPlanned(cfg, sys, r, t)
    {
      if PlannedTurn(cfg, sys.State().completed, t) {
        PlannedIsNew(cfg, sys.State().completed, t);
      }
    }
  }

  /** Once settled, a run stays settled: no later verb completes another turn of the graph or opens
      another gate. */
  lemma KeepsSettled(cfg: Config, good: set<(string, string)>, sys: Sys, w: Write)
    requires cfg.graph.caps.Valid() && LogOk(sys.log)
    requires Settled(cfg, sys) && Allows(cfg, good, sys, w)
    ensures Settled(cfg, ApplyWrite(sys, w))
  {
    hide AllComplete, GatesKnown, NoHardHuman, Allows, Fold;
    KeepsGates(cfg, good, sys, w);
    KeepsNoHardHuman(cfg, good, sys, w);
    KeepsAllComplete(cfg, good, sys, w);
  }

  lemma KeepsNoHardHuman(cfg: Config, good: set<(string, string)>, sys: Sys, w: Write)
    requires LogOk(sys.log) && Settled(cfg, sys) && Allows(cfg, good, sys, w)
    ensures NoHardHuman(cfg, ApplyWrite(sys, w).log)
  {
    hide Fold, AllComplete;
    SettledKnows(cfg, sys);
    if w.D? {
      OpenKindAfter(sys.log, w.decision, cfg.hardHuman);
    }
  }

  lemma KeepsAllComplete(cfg: Config, good: set<(string, string)>, sys: Sys, w: Write)
    requires cfg.graph.caps.Valid() && Settled(cfg, sys) && Allows(cfg, good, sys, w)
    ensures AllComplete(cfg, ApplyWrite(sys, w).State().completed)
  {
    hide Fold, AllComplete;
    CompletedChange(sys, w);
    if w.J? && w.event.TurnCompleted? {
      SettledCompletesNone(cfg, sys, w.event.record);
      CheckKeepsComplete(cfg, sys.State().completed, w.event.record);
    }
  }

  lemma KeepsFinishSafe(cfg: Config, good: set<(string, string)>, sys: Sys, w: Write)
    requires cfg.graph.caps.Valid() && LogOk(sys.log)
    requires FinishSafe(cfg, sys) && Allows(cfg, good, sys, w)
    ensures FinishSafe(cfg, ApplyWrite(sys, w))
  {
    var after := ApplyWrite(sys, w);
    if RunFinished(Finished) in after.journal {
      assert RunFinished(Finished) in sys.journal || w == J(RunFinished(Finished));
      KeepsSettled(cfg, good, sys, w);
    }
  }

  /** Every durable write a verb may make keeps every part of the invariant. */
  lemma KeepsInv(cfg: Config, good: set<(string, string)>, sys: Sys, w: Write)
    requires cfg.graph.caps.Valid() && Inv(cfg, good, sys) && Allows(cfg, good, sys, w)
    ensures Inv(cfg, good, ApplyWrite(sys, w))
  {
    KeepsBodies(cfg, good, sys, w);
    KeepsOnce(cfg, good, sys, w);
    KeepsPlanned(cfg, good, sys, w);
    KeepsGates(cfg, good, sys, w);
    KeepsCharges(cfg, good, sys, w);
    KeepsFinishSafe(cfg, good, sys, w);
    KeepsResolutions(cfg, good, sys, w);
    KeepsRecordedOnce(cfg, good, sys, w);
  }

  // --- lists of writes ----------------------------------------------------------------------------------------------

  ghost predicate AllowsAll(cfg: Config, good: set<(string, string)>, sys: Sys, ws: seq<Write>)
    decreases |ws|
  {
    ws == [] || (Allows(cfg, good, sys, ws[0]) && AllowsAll(cfg, good, ApplyWrite(sys, ws[0]), ws[1..]))
  }

  lemma ApplyOne(sys: Sys, w: Write)
    ensures ApplyAll(sys, [w]) == ApplyWrite(sys, w)
  {
    assert [w][1..] == [];
  }

  lemma {:induction false} ApplyConcat(sys: Sys, a: seq<Write>, b: seq<Write>)
    ensures ApplyAll(sys, a + b) == ApplyAll(ApplyAll(sys, a), b)
    decreases |a|
  {
    if a == [] {
      assert a + b == b;
    } else {
      assert (a + b)[1..] == a[1..] + b;
      ApplyConcat(ApplyWrite(sys, a[0]), a[1..], b);
    }
  }

  lemma {:induction false} AllowsConcat(cfg: Config, good: set<(string, string)>, sys: Sys, a: seq<Write>,
                                        b: seq<Write>)
    requires AllowsAll(cfg, good, sys, a) && AllowsAll(cfg, good, ApplyAll(sys, a), b)
    ensures AllowsAll(cfg, good, sys, a + b) && ApplyAll(sys, a + b) == ApplyAll(ApplyAll(sys, a), b)
    decreases |a|
  {
    if a == [] {
      assert a + b == b;
    } else {
      assert (a + b)[1..] == a[1..] + b;
      AllowsConcat(cfg, good, ApplyWrite(sys, a[0]), a[1..], b);
    }
  }

  /** A crash after any number of allowed writes leaves the invariant in place. */
  lemma {:induction false} InvAfterCrash(cfg: Config, good: set<(string, string)>, sys: Sys, ws: seq<Write>, n: nat)
    requires cfg.graph.caps.Valid() && Inv(cfg, good, sys) && AllowsAll(cfg, good, sys, ws) && n <= |ws|
    ensures Inv(cfg, good, ApplyAll(sys, ws[..n]))
    decreases n
  {
    if n == 0 {
      assert ws[..0] == [];
    } else {
      KeepsInv(cfg, good, sys, ws[0]);
      assert ws[..n][1..] == ws[1..][..n - 1];
      InvAfterCrash(cfg, good, ApplyWrite(sys, ws[0]), ws[1..], n - 1);
    }
  }

  lemma EmptyInv(cfg: Config, good: set<(string, string)>)
    ensures Inv(cfg, good, Sys([], map[], []))
  {
    var sys := Sys([], map[], []);
    forall i: nat | i < |cfg.units|
      ensures RunOf(cfg, i, ViewOf(cfg, sys.State().completed, i))
    {
      assert PlannerRuns.ValidRun(cfg.graph, cfg.assess(i), []);
      assert PlannerRuns.Replay([]) == map[];
      assert ViewOf(cfg, sys.State().completed, i) == map[];
    }
  }
}
