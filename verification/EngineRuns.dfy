/** Whole histories of the run engine: any verbs, in any order, each of which may die after any of its
    durable writes (src/mootloop/orchestrator.py, src/mootloop/citations/check_runner.py). */
module EngineRuns {
  import opened Wrappers
  import opened Layout
  import opened Pipeline
  import opened Journal
  import opened Decisions
  import opened Engine
  import opened EngineSafety
  import opened EngineVerbs
  import PlannerRuns
  import Panels

  /** Everything that writes to a run's journal. A run of citation checks tests the status once and takes the
      lock anew for each check, so other verbs may come between: `CiteCheck` is one such check, in whatever
      status the run then is. */
  datatype Verb =
    | StartRun(same: bool)
    | PlanTurns
    | Record(id: string, ans: Answer, now: string)
    | FinalizeNow
    | PauseRun(reason: string)
    | ResumeRun
    | ContinueRun
    | RaiseCapTo(usd: real)
    | AskAttention
    | Reserve(turnId: string, maxUsd: real)
    | ReopenRun(why: string, grant: nat)
    | Decide(decision: nat, resolution: Resolution)
    | CiteChecks(calls: seq<CheckCall>, digest: string, support: GateStatus, citation: GateStatus)
    | CiteCheck(check: CheckCall)
    | Enqueued
    | NoteGate(turn: string, gate: string, verdict: GateStatus)

  function Call(cfg: Config, sys: Sys, v: Verb): Ran {
    match v
    case StartRun(same) => Start(cfg, sys, same)
    case PlanTurns => Ran(PlanNext(cfg, sys), None)
    case Record(id, ans, now) => RecordTurn(cfg, sys, id, ans, now)
    case FinalizeNow => if sys.journal == [] then Ran([], None) else Ran(Finalize(cfg, sys), None)
    case PauseRun(reason) => Pause(sys, reason)
    case ResumeRun => Resume(sys)
    case ContinueRun => Continue(sys)
    case RaiseCapTo(usd) => RaiseCap(sys, usd)
    case AskAttention => NeedAttention(sys)
    case Reserve(id, usd) => Intend(sys, id, usd)
    case ReopenRun(why, grant) => Reopen(cfg, sys, why, grant)
    case Decide(id, r) => Resolve(cfg, sys, id, r)
    case CiteChecks(calls, digest, support, citation) => CheckCitations(cfg, sys, calls, digest, support, citation)
    case CiteCheck(c) => if sys.journal == [] then Ran([], Some(NotStarted)) else CheckOne(cfg, sys, c)
    case Enqueued => Note(sys, RunEnqueued)
    case NoteGate(turn, gate, verdict) => Note(sys, GateEvaluated(turn, gate, verdict))
  }

  /** One call and how many of its writes became durable. */
  datatype Step = Step(verb: Verb, reached: nat)

  function After(cfg: Config, sys: Sys, step: Step): Sys {
    var ws := Call(cfg, sys, step.verb).writes;
    ApplyAll(sys, ws[..if step.reached < |ws| then step.reached else |ws|])
  }

  const Empty := Sys([], map[], [])

  function Reach(cfg: Config, history: seq<Step>): Sys {
    if history == [] then Empty else After(cfg, Reach(cfg, history[..|history| - 1]), history[|history| - 1])
  }

  ghost predicate GoodVerb(cfg: Config, good: Calls, v: Verb) {
    v.Record? ==> GoodCall(cfg, good, v.id, v.ans)
  }

  ghost predicate GoodHistory(cfg: Config, good: Calls, history: seq<Step>) {
    forall i :: 0 <= i < |history| ==> GoodVerb(cfg, good, history[i].verb)
  }

  lemma UnstartedStatus(sys: Sys)
    ensures sys.journal == [] ==> sys.State() == Initial
  {
  }

  lemma CallAllowed(cfg: Config, good: Calls, sys: Sys, v: Verb)
    requires Ok(cfg, good, sys) && GoodVerb(cfg, good, v)
    ensures AllowsAll(cfg, good, sys, Call(cfg, sys, v).writes)
  {
    UnstartedStatus(sys);
    match v
    case StartRun(same) => StartAllowed(cfg, good, sys, same);
    case PlanTurns => if sys.journal != [] { CapAllowed(cfg, good, sys); }
    case Record(id, ans, now) => RecordTurnAllowed(cfg, good, sys, id, ans, now);
    case FinalizeNow => if sys.journal != [] { FinalizeAllowed(cfg, good, sys); }
    case Decide(id, r) => ResolveAllowed(cfg, good, sys, id, r);
    case CiteChecks(calls, digest, support, citation) =>
      CheckCitationsAllowed(cfg, good, sys, calls, digest, support, citation);
    case CiteCheck(c) => if sys.journal != [] { CheckAllowed(cfg, good, sys, c); }
    case _ => SingleAllowed(cfg, good, sys, v);
  }

  lemma SingleAllowed(cfg: Config, good: Calls, sys: Sys, v: Verb)
    requires !v.StartRun? && !v.PlanTurns? && !v.Record? && !v.FinalizeNow? && !v.Decide?
    requires !v.CiteChecks? && !v.CiteCheck?
    ensures AllowsAll(cfg, good, sys, Call(cfg, sys, v).writes)
  {
    UnstartedStatus(sys);
    var ws := Call(cfg, sys, v).writes;
    if ws != [] {
      OneAllowed(cfg, good, sys, ws[0]);
    }
  }

  /** The invariant holds in every state any history of calls and crashes can reach. */
  lemma {:induction false} HistoryKeepsInv(cfg: Config, good: Calls, history: seq<Step>)
    requires cfg.graph.caps.Valid() && GoodHistory(cfg, good, history)
    ensures Inv(cfg, good, Reach(cfg, history))
  {
    if history == [] {
      EmptyInv(cfg, good);
    } else {
      var front, step := history[..|history| - 1], history[|history| - 1];
      HistoryKeepsInv(cfg, good, front);
      var sys := Reach(cfg, front);
      var ws := Call(cfg, sys, step.verb).writes;
      CallAllowed(cfg, good, sys, step.verb);
      InvAfterCrash(cfg, good, sys, ws, if step.reached < |ws| then step.reached else |ws|);
    }
  }

  // --- exactly once -------------------------------------------------------------------------------------------

  /** Under any crashes and replays: a turn is completed at most once, its record is its write-once body,
      and a call whose results are always accepted is charged at most once. */
  lemma TurnsExactlyOnce(cfg: Config, good: Calls, history: seq<Step>, id: string)
    requires cfg.graph.caps.Valid() && GoodHistory(cfg, good, history)
    ensures var sys := Reach(cfg, history);
      && Completions(sys.journal, id) <= 1
      && (forall r :: TurnCompleted(r) in sys.journal && r.turnId == id ==> id in sys.bodies && sys.bodies[id] == r)
      && (forall call: string :: (id, call) in good ==> SpendsOf(sys.journal, id, call) <= 1)
  {
    HistoryKeepsInv(cfg, good, history);
    var sys := Reach(cfg, history);
    forall r | TurnCompleted(r) in sys.journal && r.turnId == id
      ensures id in sys.bodies && sys.bodies[id] == r
    {
      OneRecordPerId(sys.journal, r);
    }
    forall call: string | (id, call) in good
      ensures SpendsOf(sys.journal, id, call) <= 1
    {
      var c := (id, call);
      assert c in good;
    }
  }

  // --- finish safety --------------------------------------------------------------------------------------------

  /** If `finished` was ever journaled, then in this state and every later one all requests are complete,
      every gate a completed draft implies is in the store, and no hard-human gate is open. */
  lemma FinishedIsSafe(cfg: Config, history: seq<Step>, later: seq<Step>)
    requires cfg.graph.caps.Valid() && RunFinished(Finished) in Reach(cfg, history).journal
    ensures Settled(cfg, Reach(cfg, history + later))
  {
    HistoryKeepsInv(cfg, {}, history + later);
    JournalOnlyGrows(cfg, history, later);
  }

  lemma {:induction false} JournalOnlyGrows(cfg: Config, history: seq<Step>, later: seq<Step>)
    ensures Reach(cfg, history).journal <= Reach(cfg, history + later).journal
  {
    hide Call, ApplyAll;
    if later == [] {
      assert history + later == history;
    } else {
      var front, step := later[..|later| - 1], later[|later| - 1];
      JournalOnlyGrows(cfg, history, front);
      assert (history + later)[..|history + later| - 1] == history + front;
      var sys := Reach(cfg, history + front);
      var ws := Call(cfg, sys, step.verb).writes;
      JournalGrows(sys, ws[..if step.reached < |ws| then step.reached else |ws|]);
    }
  }

  // --- how many turns a run completes ----------------------------------------------------------------------------

  function IdsOf(cfg: Config, i: nat, slots: set<Slot>): set<string> {
    set s | s in slots && cfg.Z().Has(s) :: cfg.Id(i, s)
  }

  lemma {:induction false} IdsOfSize(cfg: Config, i: nat, slots: set<Slot>)
    ensures |IdsOf(cfg, i, slots)| <= |slots|
    decreases |slots|
  {
    if slots == {} {
      assert IdsOf(cfg, i, slots) == {};
    } else {
      var x :| x in slots;
      IdsOfSize(cfg, i, slots - {x});
      var one := if cfg.Z().Has(x) then {cfg.Id(i, x)} else {};
      assert IdsOf(cfg, i, slots) == IdsOf(cfg, i, slots - {x}) + one;
      UnionSize(IdsOf(cfg, i, slots - {x}), one);
    }
  }

  lemma UnionSize(a: set<string>, b: set<string>)
    ensures |a + b| <= |a| + |b|
  {
  }

  function RequestIds(cfg: Config, c: map<string, TurnRecord>, i: nat): set<string> {
    IdsOf(cfg, i, ViewOf(cfg, c, i).Keys)
  }

  function UnionOf(sets: seq<set<string>>): set<string> {
    if sets == [] then {} else UnionOf(sets[..|sets| - 1]) + sets[|sets| - 1]
  }

  lemma {:induction false} UnionBound(sets: seq<set<string>>, bound: nat)
    requires forall k :: 0 <= k < |sets| ==> |sets[k]| <= bound
    ensures |UnionOf(sets)| <= |sets| * bound
  {
    if sets != [] {
      UnionBound(sets[..|sets| - 1], bound);
      UnionSize(UnionOf(sets[..|sets| - 1]), sets[|sets| - 1]);
      MulStep(bound, |sets| - 1, |sets|);
    }
  }

  lemma {:induction false} InUnion(sets: seq<set<string>>, k: nat)
    requires k < |sets|
    ensures sets[k] <= UnionOf(sets)
  {
    if k < |sets| - 1 {
      InUnion(sets[..|sets| - 1], k);
    }
  }

  lemma RequestIdsSize(cfg: Config, good: Calls, sys: Sys, i: nat)
    requires Ok(cfg, good, sys) && i < |cfg.units|
    ensures |RequestIds(cfg, sys.State().completed, i)|
      <= TurnCeiling(cfg.graph.stages, cfg.graph.caps, cfg.graph.panels, cfg.graph.RubricEnabled())
  {
    var v := ViewOf(cfg, sys.State().completed, i);
    var run :| PlannerRuns.ValidRun(cfg.graph, cfg.assess(i), run) && PlannerRuns.Replay(run) == v;
    PlannerRuns.RunWithinCeiling(cfg.graph, cfg.assess(i), run);
    PlannerRuns.RunIsTyped(cfg.graph, cfg.assess(i), run);
    IdsOfSize(cfg, i, v.Keys);
    assert |v.Keys| == |v|;
  }

  /** The completed turns that are not citation checks. */
  function GraphTurns(cfg: Config, c: map<string, TurnRecord>): set<string> {
    set id | id in c && !IsCheckId(cfg, id)
  }

  lemma CompletedInRequest(cfg: Config, good: Calls, sys: Sys, id: string) returns (i: nat)
    requires Ok(cfg, good, sys) && id in GraphTurns(cfg, sys.State().completed)
    ensures i < |cfg.units| && id in RequestIds(cfg, sys.State().completed, i)
  {
    var k: nat, s: Slot :| SlotNamed(cfg, id, k, s);
    SlotsAreHas(cfg.Z());
    assert s in ViewOf(cfg, sys.State().completed, k);
    i := k;
  }

  /** A completed turn is either a slot of the graph or a citation check, and not both. */
  lemma CompletedAreLocatedOrChecks(cfg: Config, good: Calls, history: seq<Step>, id: string)
    requires cfg.graph.caps.Valid() && GoodHistory(cfg, good, history)
    requires id in Reach(cfg, history).State().completed
    ensures Located(cfg, id) <==> !IsCheckId(cfg, id)
  {
    HistoryKeepsInv(cfg, good, history);
    if IsCheckId(cfg, id) && Located(cfg, id) {
      var i: nat, s: Slot :| SlotNamed(cfg, id, i, s);
      CheckIsNoSlot(cfg, id, i, s);
      assert false;
    }
  }

  /** Whatever happens to a run, it never completes more turns of its graph than its requests times the
      committed ceiling. The ceiling does not bound citation checks. */
  lemma CompletedWithinCeiling(cfg: Config, good: Calls, history: seq<Step>)
    requires cfg.graph.caps.Valid() && GoodHistory(cfg, good, history)
    ensures |GraphTurns(cfg, Reach(cfg, history).State().completed)|
      <= |cfg.units| * TurnCeiling(cfg.graph.stages, cfg.graph.caps, cfg.graph.panels, cfg.graph.RubricEnabled())
  {
    HistoryKeepsInv(cfg, good, history);
    var sys := Reach(cfg, history);
    var c := sys.State().completed;
    var bound := TurnCeiling(cfg.graph.stages, cfg.graph.caps, cfg.graph.panels, cfg.graph.RubricEnabled());
    var sets := seq(|cfg.units|, i requires 0 <= i < |cfg.units| => RequestIds(cfg, c, i));
    forall k | 0 <= k < |sets|
      ensures |sets[k]| <= bound
    {
      RequestIdsSize(cfg, good, sys, k);
    }
    UnionBound(sets, bound);
    forall id | id in GraphTurns(cfg, c)
      ensures id in UnionOf(sets)
    {
      var i := CompletedInRequest(cfg, good, sys, id);
      InUnion(sets, i);
    }
    Panels.SubsetSize(GraphTurns(cfg, c), UnionOf(sets));
  }
}
