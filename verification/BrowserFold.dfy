/** The browser's second fold of the journal, against the server's
    (frontend/lib/api/runStream.ts:62-206, frontend/lib/api/events.ts:46-105, src/mootloop/journal.py:252-308). */
module BrowserFold {
  import opened Wrappers
  import opened Pipeline
  import opened Journal
  import opened Engine
  import opened EngineSafety
  import opened EngineVerbs
  import opened EngineRuns

  datatype Browser = Browser(
    status: Status, spend: real, pending: Amounts, completed: nat, discarded: nat, pauseReason: Option<string>,
    stage: Option<Stage>, cap: Option<real>, seqNo: nat)

  const Start := Browser(Running, 0.0, [], 0, 0, None, None, None, 0)

  /** The frames the browser's schema knows; it drops the others. */
  predicate Known(e: Event) {
    !e.RunReopened? && !e.RunEnqueued?
  }

  function Reduce(b: Browser, e: Event): Browser {
    var s := if e.RunStarted? then Start else b;
    var base := s.(seqNo := s.seqNo + 1);
    match e
    case RunStarted(_, _) => base.(status := Running)
    case StageStarted(st) => base.(stage := Some(st))
    case TurnCompleted(_) => base.(completed := s.completed + 1)
    case TurnDiscarded(_, _, _) => base.(discarded := s.discarded + 1)
    case GateEvaluated(_, _, _) => base
    case TurnIntent(t, usd) => base.(pending := Put(s.pending, t, usd))
    case SpendRecorded(t, usd, _, _) => base.(spend := s.spend + usd, pending := Drop(s.pending, t))
    case CapRaised(usd) => base.(cap := Some(usd), status := if s.status == Capped then Running else s.status)
    case DecisionRecorded(_, _, _, _, _) => base
    case CheckpointReached(_) => base.(status := Checkpoint)
    case CheckpointCleared(_) => base.(status := Running)
    case RunPaused(reason) => base.(status := Paused, pauseReason := Some(reason))
    case RunResumed => base.(status := Running, pauseReason := None)
    case RunFinished(status) => base.(status := status)
    case RunReopened(_, _) => b
    case RunEnqueued => b
  }

  /** The stream as the browser folds it, dropping unknown frames. */
  function ReduceAll(b: Browser, journal: seq<Event>): Browser {
    if journal == [] then b
    else
      var before := ReduceAll(b, journal[..|journal| - 1]);
      var e := journal[|journal| - 1];
      if Known(e) then Reduce(before, e) else before
  }

  /** What the verbs may journal: a run starts once, first; events respect the status; a turn completes once,
      whatever the status. */
  predicate MayFollow(journal: seq<Event>, e: Event) {
    && (e.RunStarted? <==> journal == [])
    && StatusAllows(Fold(journal), e)
    && (e.TurnCompleted? ==> e.record.turnId !in Fold(journal).completed)
  }

  predicate Guarded(journal: seq<Event>) {
    journal == [] || (Guarded(journal[..|journal| - 1]) && MayFollow(journal[..|journal| - 1], journal[|journal| - 1]))
  }

  /** The last event that settled the status was a reopen: the one such frame the browser drops. */
  predicate StaleReopen(journal: seq<Event>) {
    if journal == [] then false
    else
      var e := journal[|journal| - 1];
      e.RunReopened?
      || (!e.RunFinished? && !e.CheckpointReached? && !e.RunPaused? && StaleReopen(journal[..|journal| - 1]))
  }

  /** Everything but the status. */
  ghost predicate Agrees(s: RunState, b: Browser) {
    && b.spend == s.spend && b.pending == s.pending && b.pauseReason == s.pauseReason
    && b.completed == |s.completed| && b.stage == s.currentStage && b.cap == s.capRaisedTo
  }

  lemma StepAgrees(journal: seq<Event>, e: Event, s: RunState, b: Browser)
    requires s == Fold(journal) && journal != [] && MayFollow(journal, e) && Agrees(s, b)
    requires b.status == if StaleReopen(journal) then NeedsAttention else s.status
    requires StaleReopen(journal) ==> s.status == Running
    ensures var next := if Known(e) then Reduce(b, e) else b;
      var stale := e.RunReopened?
        || (!e.RunFinished? && !e.CheckpointReached? && !e.RunPaused? && StaleReopen(journal));
      && Agrees(Apply(s, e), next)
      && next.status == (if stale then NeedsAttention else Apply(s, e).status)
      && (stale ==> Apply(s, e).status == Running)
  {
  }

  /** On every journal the verbs can produce, the browser and the server agree on spend, reservations,
      pause reason, completed turns, stage and cap; and they agree on the status except exactly while the
      last event that settled it is a reopen, which the browser never sees. */
  lemma {:induction false} FoldsAgree(journal: seq<Event>, b: Browser)
    requires Guarded(journal) && journal != []
    ensures var s, view := Fold(journal), ReduceAll(b, journal);
      && Agrees(s, view)
      && view.status == (if StaleReopen(journal) then NeedsAttention else s.status)
      && (StaleReopen(journal) ==> s.status == Running)
      && (view.status == s.status <==> !StaleReopen(journal))
  {
    var front, e := journal[..|journal| - 1], journal[|journal| - 1];
    if front == [] {
      assert ReduceAll(b, front) == b;
    } else {
      FoldsAgree(front, b);
      StepAgrees(front, e, Fold(front), ReduceAll(b, front));
    }
  }

  lemma {:induction false} NoReopenNotStale(journal: seq<Event>)
    requires forall e :: e in journal ==> !e.RunReopened?
    ensures !StaleReopen(journal)
  {
    if journal != [] {
      NoReopenNotStale(journal[..|journal| - 1]);
    }
  }

  /** Without a reopen, the two folds agree on the status as well. */
  lemma FoldsAgreeWithoutReopen(journal: seq<Event>, b: Browser)
    requires Guarded(journal) && journal != [] && forall e :: e in journal ==> !e.RunReopened?
    ensures Agrees(Fold(journal), ReduceAll(b, journal)) && ReduceAll(b, journal).status == Fold(journal).status
  {
    FoldsAgree(journal, b);
    NoReopenNotStale(journal);
  }

  /** Replaying any journal that begins with the start of its run gives, onto any browser state, what a
      fresh start gives. */
  lemma {:induction false} ReplayIsFresh(journal: seq<Event>, b: Browser)
    requires journal != [] && journal[0].RunStarted?
    ensures ReduceAll(b, journal) == ReduceAll(Start, journal)
  {
    var front := journal[..|journal| - 1];
    if front != [] {
      ReplayIsFresh(front, b);
    }
  }

  /** A started run was started once, so an identical second start is always accepted. */
  lemma {:induction false} StartedOnce(journal: seq<Event>)
    requires Guarded(journal)
    ensures TimesStarted(journal) == if journal == [] then 0 else 1
  {
    if journal != [] {
      StartedOnce(journal[..|journal| - 1]);
    }
  }

  // --- the engine's journals are guarded -----------------------------------------------------------------------

  lemma WriteKeepsGuard(cfg: Config, good: Calls, sys: Sys, w: Write)
    requires cfg.graph.caps.Valid() && Guarded(sys.journal) && Allows(cfg, good, sys, w)
    ensures Guarded(ApplyWrite(sys, w).journal)
  {
    if w.J? {
      AppendJournal(sys, w.event);
    }
  }

  lemma {:induction false} WritesKeepGuard(cfg: Config, good: Calls, sys: Sys, ws: seq<Write>, n: nat)
    requires cfg.graph.caps.Valid() && Guarded(sys.journal) && AllowsAll(cfg, good, sys, ws) && n <= |ws|
    ensures Guarded(ApplyAll(sys, ws[..n]).journal)
    decreases n
  {
    hide Allows, Guarded, ApplyWrite;
    if n > 0 {
      WriteKeepsGuard(cfg, good, sys, ws[0]);
      assert ws[..n][1..] == ws[1..][..n - 1];
      WritesKeepGuard(cfg, good, ApplyWrite(sys, ws[0]), ws[1..], n - 1);
    }
  }

  /** Every history of verbs and crashes leaves a guarded journal. */
  lemma {:induction false} HistoriesAreGuarded(cfg: Config, good: Calls, history: seq<Step>)
    requires cfg.graph.caps.Valid() && GoodHistory(cfg, good, history)
    ensures Guarded(Reach(cfg, history).journal)
  {
    if history != [] {
      var front, step := history[..|history| - 1], history[|history| - 1];
      HistoriesAreGuarded(cfg, good, front);
      HistoryKeepsInv(cfg, good, front);
      var sys := Reach(cfg, front);
      CallAllowed(cfg, good, sys, step.verb);
      var ws := Call(cfg, sys, step.verb).writes;
      WritesKeepGuard(cfg, good, sys, ws, if step.reached < |ws| then step.reached else |ws|);
    }
  }
}
