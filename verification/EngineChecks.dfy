/** Citation checks under crashes, retries and the spend cap, and what they add to the turns of a run
    (src/mootloop/citations/check_runner.py:178-343). */
module EngineChecks {
  import opened Wrappers
  import opened Layout
  import opened Pipeline
  import opened Stages
  import opened Journal
  import opened Engine
  import opened EngineSafety
  import opened EngineVerbs
  import opened EngineRuns
  import opened EngineRetry
  import opened EngineReplay
  import opened EngineCharges
  import opened EngineDrive

  // --- writes that leave the course of the run --------------------------------------------------------------

  predicate Quiet(w: Write) {
    w.J? ==>
      || w.event.StageStarted? || w.event.TurnCompleted? || w.event.GateEvaluated? || w.event.SpendRecorded?
      || w.event.TurnIntent?
  }

  lemma {:induction false} QuietKeeps(sys: Sys, ws: seq<Write>)
    requires forall w :: w in ws ==> Quiet(w)
    ensures ApplyAll(sys, ws).State().status == sys.State().status
    ensures ApplyAll(sys, ws).State().capRaisedTo == sys.State().capRaisedTo
    decreases |ws|
  {
    if ws != [] {
      assert Quiet(ws[0]);
      StateAfter(sys, ws[0]);
      hide Quiet, Fold;
      QuietKeeps(ApplyWrite(sys, ws[0]), ws[1..]);
    }
  }

  // --- one check ------------------------------------------------------------------------------------------------

  /** A check that is open, within the cap, and answered with a result that is valid. */
  predicate Completable(cfg: Config, sys: Sys, c: CheckCall) {
    && CheckId(cfg, c.proposition) !in sys.State().completed && !OverCap(cfg, sys.State())
    && Accepts(c.ans, CiteCheckSchema) && SettleBody(sys.bodies, CheckRecord(cfg, c)).Some?
  }

  /** The record such a check completes with. */
  function Verdict(cfg: Config, sys: Sys, c: CheckCall): (rec: TurnRecord)
    requires Completable(cfg, sys, c)
    ensures rec.turnId == CheckId(cfg, c.proposition) && rec == CheckRecord(cfg, c).(completedAt := rec.completedAt)
  {
    SettleBody(sys.bodies, CheckRecord(cfg, c)).value
  }

  lemma CheckShape(cfg: Config, sys: Sys, c: CheckCall)
    requires Completable(cfg, sys, c)
    ensures var reserve := ReserveWrites(sys, CheckId(cfg, c.proposition), c.maxUsd);
      CheckOne(cfg, sys, c) == Ran(reserve + CheckCompletion(ApplyAll(sys, reserve), Verdict(cfg, sys, c), c.ans), None)
  {
    hide CheckCompletion, OverCap, Fold, Accepts, CheckRecord;
    EventsLeaveStores(sys, ReserveWrites(sys, CheckId(cfg, c.proposition), c.maxUsd));
  }

  lemma CheckIsQuiet(cfg: Config, sys: Sys, c: CheckCall)
    ensures forall w :: w in CheckOne(cfg, sys, c).writes ==> Quiet(w)
  {
    hide Fold, HasKey, OverCap, SettleBody, Booked, ApplyAll;
  }

  /** A check that can complete does: it adds its turn, and leaves everything else about turns as it was. */
  lemma CheckCompletes(cfg: Config, good: Calls, sys: Sys, c: CheckCall)
    requires Ok(cfg, good, sys) && sys.journal != [] && Completable(cfg, sys, c)
    ensures var rec := Verdict(cfg, sys, c);
      var next := ApplyAll(sys, CheckOne(cfg, sys, c).writes);
      && CheckOne(cfg, sys, c).error.None? && Ok(cfg, good, next) && next.journal != []
      && next.State().completed == sys.State().completed[rec.turnId := rec]
      && next.bodies == sys.bodies[rec.turnId := rec]
      && next.State().status == sys.State().status && next.State().capRaisedTo == sys.State().capRaisedTo
  {
    CheckAllowed(cfg, good, sys, c);
    CheckIsQuiet(cfg, sys, c);
    QuietKeeps(sys, CheckOne(cfg, sys, c).writes);
    CheckShape(cfg, sys, c);
    var id := CheckId(cfg, c.proposition);
    var rec := Verdict(cfg, sys, c);
    assert IsCheckTurn(cfg, rec);
    hide Inv, CheckOne, CheckCompletion, ApplyAll, Fold, OverCap, Accepts;
    var reserve := ReserveWrites(sys, id, c.maxUsd);
    ReserveAllowed(cfg, good, sys, id, c.maxUsd);
    var sys1 := ApplyAll(sys, reserve);
    CheckCompletionAllowed(cfg, good, sys1, rec, c.ans);
    ApplyConcat(sys, reserve, CheckCompletion(sys1, rec, c.ans));
  }

  // --- replay ---------------------------------------------------------------------------------------------------

  lemma CheckWritesItsBody(cfg: Config, sys: Sys, c: CheckCall)
    requires Completable(cfg, sys, c)
    ensures forall w :: w in CheckOne(cfg, sys, c).writes ==> w.B? ==> w.record == Verdict(cfg, sys, c)
  {
    CheckShape(cfg, sys, c);
  }

  /** Wherever a check died, it can be settled again with the same answer. */
  lemma CrashedCheckSettles(cfg: Config, sys: Sys, c: CheckCall, n: nat, again: CheckCall)
    requires Completable(cfg, sys, c) && n <= |CheckOne(cfg, sys, c).writes|
    requires again.proposition == c.proposition && again.ans == c.ans
    ensures SettleBody(ApplyAll(sys, CheckOne(cfg, sys, c).writes[..n]).bodies, CheckRecord(cfg, again)).Some?
  {
    CheckWritesItsBody(cfg, sys, c);
    OnlyBody(sys, CheckOne(cfg, sys, c).writes[..n], Verdict(cfg, sys, c));
  }

  /** The same check, made again with the same answer, at any later time and at any later price. */
  predicate Repeats(again: CheckCall, c: CheckCall) {
    again.proposition == c.proposition && again.ans == c.ans
  }

  /** Wherever a check died, making it again with the same answer lands it, once, charged once, with its body
      as its record, exactly when it had completed or the run is not over its cap; over the cap it writes
      nothing. */
  lemma CheckAfterCrash(cfg: Config, good: Calls, sys: Sys, c: CheckCall, n: nat, again: CheckCall)
    requires Ok(cfg, good, sys) && sys.journal != [] && Completable(cfg, sys, c) && Repeats(again, c)
    requires c.ans.usage.Some? && c.ans.call.Some? && (CheckId(cfg, c.proposition), c.ans.call.value) in good
    requires n <= |CheckOne(cfg, sys, c).writes|
    ensures var id := CheckId(cfg, c.proposition);
      var crashed := ApplyAll(sys, CheckOne(cfg, sys, c).writes[..n]);
      var ran := CheckOne(cfg, crashed, again);
      && ran.error.None?
      && (Landed(ApplyAll(crashed, ran.writes), id, c.ans)
          <==> id in crashed.State().completed || !OverCap(cfg, crashed.State()))
      && (OverCap(cfg, crashed.State()) ==> ran.writes == [])
  {
    var id := CheckId(cfg, c.proposition);
    var ws := CheckOne(cfg, sys, c).writes;
    var crashed := ApplyAll(sys, ws[..n]);
    CheckAllowed(cfg, good, sys, c);
    InvAfterCrash(cfg, good, sys, ws, n);
    JournalGrows(sys, ws[..n]);
    hide Inv, ApplyAll, Fold, Charged, Landed;
    if id in crashed.State().completed {
      hide OverCap;
      CheckCharges(cfg, sys, c, n, id);
      CompletedCheckStays(cfg, good, crashed, again);
    } else if OverCap(cfg, crashed.State()) {
      NotLanded(cfg, crashed, id, c.ans);
    } else {
      CrashedCheckSettles(cfg, sys, c, n, again);
      OpenCheckLands(cfg, good, crashed, again);
    }
  }

  lemma NotLanded(cfg: Config, sys: Sys, id: string, ans: Answer)
    requires id !in sys.State().completed
    ensures !Landed(ApplyAll(sys, []), id, ans)
  {
  }

  lemma CompletedCheckStays(cfg: Config, good: Calls, sys: Sys, c: CheckCall)
    requires Ok(cfg, good, sys) && sys.journal != [] && Charged(sys, CheckId(cfg, c.proposition), c.ans)
    requires c.ans.usage.Some? && c.ans.call.Some? && (CheckId(cfg, c.proposition), c.ans.call.value) in good
    requires Accepts(c.ans, CiteCheckSchema)
    ensures CheckOne(cfg, sys, c).error.None?
    ensures Landed(ApplyAll(sys, CheckOne(cfg, sys, c).writes), CheckId(cfg, c.proposition), c.ans)
  {
    hide Inv, ApplyAll, OverCap, Landed;
    var ws := CheckOne(cfg, sys, c).writes;
    CheckAllowed(cfg, good, sys, c);
    ChargedStays(cfg, good, sys, ws, |ws|, CheckId(cfg, c.proposition), c.ans);
    assert ws[..|ws|] == ws;
    LandedBy(cfg, good, ApplyAll(sys, ws), CheckId(cfg, c.proposition), c.ans);
  }

  lemma OpenCheckLands(cfg: Config, good: Calls, sys: Sys, c: CheckCall)
    requires Ok(cfg, good, sys) && sys.journal != [] && Completable(cfg, sys, c)
    requires c.ans.usage.Some? && c.ans.call.Some? && (CheckId(cfg, c.proposition), c.ans.call.value) in good
    ensures CheckOne(cfg, sys, c).error.None?
    ensures Landed(ApplyAll(sys, CheckOne(cfg, sys, c).writes), CheckId(cfg, c.proposition), c.ans)
  {
    CheckCompletes(cfg, good, sys, c);
    hide Inv, ApplyAll, OverCap, Landed, CheckOne;
    var ws := CheckOne(cfg, sys, c).writes;
    assert ws[..|ws|] == ws;
    CheckCharges(cfg, sys, c, |ws|, CheckId(cfg, c.proposition));
    LandedBy(cfg, good, ApplyAll(sys, ws), CheckId(cfg, c.proposition), c.ans);
  }

  // --- what a crash does to the cap -----------------------------------------------------------------------------

  lemma HeadKey(m: Amounts, k: string)
    requires m != []
    ensures HasKey(m, k) <==> m[0].0 == k || HasKey(m[1..], k)
  {
    if HasKey(m[1..], k) {
      var i :| 0 <= i < |m[1..]| && m[1..][i].0 == k;
      assert m[i + 1].0 == k;
    }
    if HasKey(m, k) && m[0].0 != k {
      var i :| 0 <= i < |m| && m[i].0 == k;
      assert m[1..][i - 1].0 == k;
    }
  }

  lemma {:induction false} PutNew(m: Amounts, key: string, usd: real)
    requires !HasKey(m, key)
    ensures Total(Put(m, key, usd)) == Total(m) + usd
  {
    if m != [] {
      HeadKey(m, key);
      PutNew(m[1..], key, usd);
      assert ([m[0]] + Put(m[1..], key, usd))[1..] == Put(m[1..], key, usd);
    }
  }

  /** A check that dies while its provider is called leaves the run over its cap exactly when its own
      reservation reaches it. No check of the run, this one included, then writes anything until the cap is
      raised or something settles. */
  lemma StrandedByItsReservation(cfg: Config, sys: Sys, c: CheckCall, cap: real)
    requires Completable(cfg, sys, c) && EffectiveCap(cfg, sys.State()) == Some(cap)
    requires !HasKey(sys.State().pending, CheckId(cfg, c.proposition))
    ensures var crashed := ApplyAll(sys, CheckOne(cfg, sys, c).writes[..1]);
      && (OverCap(cfg, crashed.State()) <==> sys.State().spend + Total(sys.State().pending) + c.maxUsd >= cap)
      && (OverCap(cfg, crashed.State()) ==> forall later: CheckCall :: CheckOne(cfg, crashed, later).writes == [])
  {
    var id := CheckId(cfg, c.proposition);
    var w := J(TurnIntent(id, c.maxUsd));
    CheckShape(cfg, sys, c);
    hide CheckCompletion, Fold, Accepts, CheckRecord;
    assert CheckOne(cfg, sys, c).writes[..1] == [w];
    ApplyOne(sys, w);
    StateAfter(sys, w);
    PutNew(sys.State().pending, id, c.maxUsd);
  }

  predicate UniqueKeys(m: Amounts) {
    forall i, j :: 0 <= i < j < |m| ==> m[i].0 != m[j].0
  }

  lemma {:induction false} PutKeys(m: Amounts, key: string, usd: real, k: string)
    ensures HasKey(Put(m, key, usd), k) <==> HasKey(m, k) || k == key
    ensures UniqueKeys(m) ==> UniqueKeys(Put(m, key, usd))
  {
    if m == [] {
      assert Put(m, key, usd)[0].0 == key;
    } else if m[0].0 == key {
      HeadKey(m, k);
      HeadKey(Put(m, key, usd), k);
      assert Put(m, key, usd)[1..] == m[1..];
    } else {
      PutKeys(m[1..], key, usd, k);
      PutKeys(m[1..], key, usd, m[0].0);
      HeadKey(m, k);
      HeadKey(m, m[0].0);
      var rest := Put(m[1..], key, usd);
      assert ([m[0]] + rest)[1..] == rest;
      HeadKey([m[0]] + rest, k);
      if UniqueKeys(m) {
        TailUnique(m);
        ConsUnique(m[0], rest);
      }
    }
  }

  lemma TailUnique(m: Amounts)
    requires m != [] && UniqueKeys(m)
    ensures UniqueKeys(m[1..]) && !HasKey(m[1..], m[0].0)
  {
  }

  lemma ConsUnique(head: (string, real), rest: Amounts)
    requires UniqueKeys(rest) && !HasKey(rest, head.0)
    ensures UniqueKeys([head] + rest)
  {
  }

  lemma {:induction false} DropKeys(m: Amounts, key: string, k: string)
    requires UniqueKeys(m)
    ensures HasKey(Drop(m, key), k) <==> HasKey(m, k) && k != key
    ensures UniqueKeys(Drop(m, key))
  {
    if m != [] {
      TailUnique(m);
      HeadKey(m, k);
      if m[0].0 != key {
        DropKeys(m[1..], key, k);
        DropKeys(m[1..], key, m[0].0);
        var rest := Drop(m[1..], key);
        assert ([m[0]] + rest)[1..] == rest;
        HeadKey([m[0]] + rest, k);
        ConsUnique(m[0], rest);
      }
    }
  }

  lemma {:induction false} PendingUnique(journal: seq<Event>)
    ensures UniqueKeys(Fold(journal).pending)
  {
    if journal != [] {
      var front, e := journal[..|journal| - 1], journal[|journal| - 1];
      PendingUnique(front);
      var m := Fold(front).pending;
      if e.TurnIntent? {
        PutKeys(m, e.turnId, e.maxPlausibleUsd, e.turnId);
      } else if e.SpendRecorded? {
        DropKeys(m, e.turnId, e.turnId);
      }
    }
  }

  lemma CompletionSettles(sys: Sys, rec: TurnRecord, ans: Answer)
    requires HasKey(sys.State().pending, rec.turnId)
    ensures HasKey(ApplyAll(sys, CheckCompletion(sys, rec, ans)).State().pending, rec.turnId)
      <==> BookSpend(sys, rec.turnId, ans, true) == []
  {
    PendingUnique(sys.journal);
    hide Fold, Booked, HasKey, ApplyAll;
    var body := if rec.turnId in sys.bodies then [] else [B(rec)];
    var spend := BookSpend(sys, rec.turnId, ans, true);
    var done := [J(TurnCompleted(rec))];
    assert CheckCompletion(sys, rec, ans) == body + spend + done;
    NoEvents(sys, body);
    var sys1 := ApplyAll(sys, body);
    assert sys1.State() == sys.State();
    ApplyConcat(sys, body, spend);
    ApplyConcat(sys, body + spend, done);
    var sys2 := ApplyAll(sys1, spend);
    ApplyOne(sys2, done[0]);
    StateAfter(sys2, done[0]);
    if spend == [] {
      NoEvents(sys1, spend);
    } else {
      ApplyOne(sys1, spend[0]);
      StateAfter(sys1, spend[0]);
      DropKeys(sys.State().pending, rec.turnId, rec.turnId);
      assert spend == [spend[0]];
    }
  }

  lemma ReserveKeepsBooks(sys: Sys, id: string, usd: real, ans: Answer)
    ensures var next := ApplyAll(sys, ReserveWrites(sys, id, usd));
      HasKey(next.State().pending, id) && BookSpend(next, id, ans, true) == BookSpend(sys, id, ans, true)
  {
    hide Fold;
    if !HasKey(sys.State().pending, id) {
      var w := J(TurnIntent(id, usd));
      ApplyOne(sys, w);
      StateAfter(sys, w);
      PutKeys(sys.State().pending, id, usd, id);
      AppendJournal(sys, w.event);
    }
  }

  /** A check that completes leaves a reservation behind exactly when it books nothing: when it reports no
      usage, or when an earlier, interrupted attempt had already booked the same call. */
  lemma CheckLeavesReservation(cfg: Config, sys: Sys, c: CheckCall)
    requires Completable(cfg, sys, c)
    ensures var id := CheckId(cfg, c.proposition);
      var next := ApplyAll(sys, CheckOne(cfg, sys, c).writes);
      HasKey(next.State().pending, id) <==> c.ans.usage.None? || Booked(sys.journal, id, c.ans)
  {
    CheckShape(cfg, sys, c);
    hide ReserveWrites, CheckCompletion, CheckOne, Fold, HasKey, OverCap, Accepts, CheckRecord, ApplyAll;
    var id := CheckId(cfg, c.proposition);
    var reserve := ReserveWrites(sys, id, c.maxUsd);
    var sys1 := ApplyAll(sys, reserve);
    ReserveKeepsBooks(sys, id, c.maxUsd, c.ans);
    CompletionSettles(sys1, Verdict(cfg, sys, c), c.ans);
    ApplyConcat(sys, reserve, CheckCompletion(sys1, Verdict(cfg, sys, c), c.ans));
  }

  // --- checks are beyond the ceiling --------------------------------------------------------------------------

  /** Each check in its turn is open, within the cap, and validly answered. */
  predicate AllCompletable(cfg: Config, sys: Sys, calls: seq<CheckCall>)
    decreases |calls|
  {
    calls == [] ||
    (Completable(cfg, sys, calls[0])
     && AllCompletable(cfg, ApplyAll(sys, CheckOne(cfg, sys, calls[0]).writes), calls[1..]))
  }

  lemma NewKey(c: map<string, TurnRecord>, r: TurnRecord)
    requires r.turnId !in c
    ensures |c[r.turnId := r]| == |c| + 1
  {
    assert c[r.turnId := r].Keys == c.Keys + {r.turnId};
    assert |c.Keys| == |c| && |c[r.turnId := r].Keys| == |c[r.turnId := r]|;
  }

  lemma {:induction false} EachCompletes(cfg: Config, good: Calls, sys: Sys, calls: seq<CheckCall>)
    requires Ok(cfg, good, sys) && sys.journal != [] && AllCompletable(cfg, sys, calls)
    ensures var ran := CheckEach(cfg, sys, calls);
      ran.error.None? && |ApplyAll(sys, ran.writes).State().completed| == |sys.State().completed| + |calls|
    decreases |calls|
  {
    hide Inv, CheckOne, Completable, Fold;
    if calls != [] {
      var first := CheckOne(cfg, sys, calls[0]).writes;
      CheckCompletes(cfg, good, sys, calls[0]);
      OneMore(cfg, sys, calls[0]);
      var next := ApplyAll(sys, first);
      EachCompletes(cfg, good, next, calls[1..]);
      hide ApplyAll;
      ApplyConcat(sys, first, CheckEach(cfg, next, calls[1..]).writes);
    }
  }

  lemma OneMore(cfg: Config, sys: Sys, c: CheckCall)
    requires Completable(cfg, sys, c)
    requires ApplyAll(sys, CheckOne(cfg, sys, c).writes).State().completed
      == sys.State().completed[Verdict(cfg, sys, c).turnId := Verdict(cfg, sys, c)]
    ensures |ApplyAll(sys, CheckOne(cfg, sys, c).writes).State().completed| == |sys.State().completed| + 1
  {
    NewKey(sys.State().completed, Verdict(cfg, sys, c));
  }

  /** The two gates at the end complete nothing. */
  lemma GatesKeepCompleted(cfg: Config, sys: Sys, calls: seq<CheckCall>, digest: string, support: GateStatus,
                           citation: GateStatus)
    requires sys.journal != [] && (sys.State().status == Finished || sys.State().status == NeedsDecisions)
    requires CheckEach(cfg, sys, calls).error.None?
    ensures ApplyAll(sys, CheckCitations(cfg, sys, calls, digest, support, citation).writes).State().completed
         == ApplyAll(sys, CheckEach(cfg, sys, calls).writes).State().completed
  {
    hide CheckEach, Fold, ApplyAll;
    var each := CheckEach(cfg, sys, calls).writes;
    var gates := CheckCitations(cfg, sys, calls, digest, support, citation).writes[|each|..];
    assert CheckCitations(cfg, sys, calls, digest, support, citation).writes == each + gates;
    ApplyConcat(sys, each, gates);
    InformsOnly(ApplyAll(sys, each), gates);
  }

  ghost predicate Drafted(c: map<string, TurnRecord>) {
    exists id :: id in c && c[id].schema == DraftSchema
  }

  function TurnBound(cfg: Config): nat {
    |cfg.units| * TurnCeiling(cfg.graph.stages, cfg.graph.caps, cfg.graph.panels, cfg.graph.RubricEnabled())
  }

  /** The ceiling is no bound on all completed turns: whatever a run went through, once it stops drafting with a
      draft to cite from, every open check within the cap completes one more turn, so more checks than the
      ceiling leave more turns than it. */
  lemma ChecksPassCeiling(cfg: Config, good: Calls, history: seq<Step>, calls: seq<CheckCall>, digest: string,
                          support: GateStatus, citation: GateStatus, reached: nat)
    requires cfg.graph.caps.Valid() && GoodHistory(cfg, good, history)
    requires var s := Reach(cfg, history).State();
      (s.status == Finished || s.status == NeedsDecisions) && Drafted(s.completed)
    requires AllCompletable(cfg, Reach(cfg, history), calls)
    requires reached >= |CheckCitations(cfg, Reach(cfg, history), calls, digest, support, citation).writes|
    ensures var after := Reach(cfg, history + [Step(CiteChecks(calls, digest, support, citation), reached)]);
      && |after.State().completed| == |Reach(cfg, history).State().completed| + |calls|
      && (|calls| > TurnBound(cfg) ==> |after.State().completed| > TurnBound(cfg))
  {
    hide *;
    HistoryKeepsInv(cfg, good, history);
    var sys := Reach(cfg, history);
    CitationsComplete(cfg, good, sys, calls, digest, support, citation);
    WholeChecks(cfg, sys, calls, digest, support, citation, reached);
    LastStep(cfg, history, Step(CiteChecks(calls, digest, support, citation), reached));
  }

  lemma CitationsComplete(cfg: Config, good: Calls, sys: Sys, calls: seq<CheckCall>, digest: string,
                          support: GateStatus, citation: GateStatus)
    requires cfg.graph.caps.Valid() && Inv(cfg, good, sys) && AllCompletable(cfg, sys, calls)
    requires sys.State().status == Finished || sys.State().status == NeedsDecisions
    ensures |ApplyAll(sys, CheckCitations(cfg, sys, calls, digest, support, citation).writes).State().completed|
         == |sys.State().completed| + |calls|
  {
    UnstartedStatus(sys);
    hide Inv, Fold, CheckEach, ApplyAll, AllCompletable, CheckCitations;
    EachCompletes(cfg, good, sys, calls);
    GatesKeepCompleted(cfg, sys, calls, digest, support, citation);
  }

  lemma WholeChecks(cfg: Config, sys: Sys, calls: seq<CheckCall>, digest: string, support: GateStatus,
                    citation: GateStatus, reached: nat)
    requires reached >= |CheckCitations(cfg, sys, calls, digest, support, citation).writes|
    ensures After(cfg, sys, Step(CiteChecks(calls, digest, support, citation), reached))
         == ApplyAll(sys, CheckCitations(cfg, sys, calls, digest, support, citation).writes)
  {
    hide CheckCitations, ApplyAll;
    var ws := CheckCitations(cfg, sys, calls, digest, support, citation).writes;
    assert ws[..|ws|] == ws;
  }

  lemma LastStep(cfg: Config, history: seq<Step>, step: Step)
    ensures Reach(cfg, history + [step]) == After(cfg, Reach(cfg, history), step)
  {
    hide After;
    assert (history + [step])[..|history|] == history;
  }

  /** Checks never asked for before, of different propositions and validly answered. */
  predicate FreshChecks(cfg: Config, sys: Sys, calls: seq<CheckCall>) {
    && (forall c :: c in calls ==>
          && CheckId(cfg, c.proposition) !in sys.State().completed && CheckId(cfg, c.proposition) !in sys.bodies
          && Accepts(c.ans, CiteCheckSchema))
    && forall i, j :: 0 <= i < j < |calls| ==> calls[i].proposition != calls[j].proposition
  }

  lemma CheckIdInjective(cfg: Config, a: string, b: string)
    requires CheckId(cfg, a) == CheckId(cfg, b)
    ensures a == b
  {
    var prefix := cfg.runId + "-cite-";
    assert CheckId(cfg, a)[|prefix|..] == a && CheckId(cfg, b)[|prefix|..] == b;
  }

  /** Without a cap, all of them complete. */
  lemma {:induction false} UncappedChecksComplete(cfg: Config, good: Calls, sys: Sys, calls: seq<CheckCall>)
    requires Ok(cfg, good, sys) && sys.journal != [] && FreshChecks(cfg, sys, calls)
    requires EffectiveCap(cfg, sys.State()).None?
    ensures AllCompletable(cfg, sys, calls)
    decreases |calls|
  {
    if calls != [] {
      var c := calls[0];
      assert c in calls && Completable(cfg, sys, c);
      CheckCompletes(cfg, good, sys, c);
      var next := ApplyAll(sys, CheckOne(cfg, sys, c).writes);
      RestIsFresh(cfg, sys, next, calls);
      hide Inv, CheckOne, Fold, ApplyAll, FreshChecks;
      UncappedChecksComplete(cfg, good, next, calls[1..]);
    }
  }

  lemma RestIsFresh(cfg: Config, sys: Sys, next: Sys, calls: seq<CheckCall>)
    requires calls != [] && FreshChecks(cfg, sys, calls) && Completable(cfg, sys, calls[0])
    requires var rec := Verdict(cfg, sys, calls[0]);
      && next.State().completed == sys.State().completed[rec.turnId := rec]
      && next.bodies == sys.bodies[rec.turnId := rec]
    ensures FreshChecks(cfg, next, calls[1..])
  {
    hide Fold, Completable;
    forall i | 1 <= i < |calls|
      ensures CheckId(cfg, calls[i].proposition) != CheckId(cfg, calls[0].proposition)
    {
      if CheckId(cfg, calls[i].proposition) == CheckId(cfg, calls[0].proposition) {
        CheckIdInjective(cfg, calls[i].proposition, calls[0].proposition);
      }
    }
  }

  // --- the last draft of a run -----------------------------------------------------------------------------------

  predicate Stopped(s: RunState) {
    s.status == Finished || s.status == NeedsDecisions
  }

  lemma NotesAreQuiet(ws: seq<Write>)
    requires forall w :: w in ws ==> w.D? || Notes(w)
    ensures forall w :: w in ws ==> Quiet(w)
  {
    forall w | w in ws
      ensures Quiet(w)
    {
      assert w.D? || Notes(w);
    }
  }

  lemma FinalizeSettles(cfg: Config, sys: Sys)
    requires sys.State().status == Running && AllComplete(cfg, sys.State().completed)
    ensures var next := ApplyAll(sys, Finalize(cfg, sys)).State();
      Stopped(next) && next.capRaisedTo == sys.State().capRaisedTo
  {
    var front, last := FinalizeEnds(cfg, sys);
    hide Finalize, Fold, ApplyAll, AllComplete;
    NotesAreQuiet(front);
    QuietKeeps(sys, front);
    ApplyConcat(sys, front, [J(last)]);
    ApplyOne(ApplyAll(sys, front), J(last));
    StateAfter(ApplyAll(sys, front), J(last));
  }

  lemma OnwardSettles(cfg: Config, sys: Sys)
    requires sys.State().status == Running && AllComplete(cfg, sys.State().completed)
    requires EffectiveCap(cfg, sys.State()).None?
    ensures var next := ApplyAll(sys, Onward(cfg, sys)).State();
      Stopped(next) && next.capRaisedTo == sys.State().capRaisedTo
  {
    FinalizeSettles(cfg, sys);
    hide Finalize, Fold, ApplyAll, AllComplete;
    var done := Finalize(cfg, sys);
    assert MaybeCheckpoint(cfg, ApplyAll(sys, done)) == [];
    assert done + [] == done;
  }

  lemma AftermathSettles(cfg: Config, sys: Sys, rec: TurnRecord)
    requires sys.State().status == Running && AllComplete(cfg, sys.State().completed)
    requires EffectiveCap(cfg, sys.State()).None?
    ensures var next := ApplyAll(sys, Aftermath(cfg, sys, rec)).State();
      Stopped(next) && next.capRaisedTo == sys.State().capRaisedTo
  {
    hide Fold, ApplyAll, AllComplete, RubricGateWrites, Onward;
    var rubric := RubricGateWrites(cfg, sys, rec);
    RubricIsNote(cfg, sys, rec);
    NotesAreQuiet(rubric);
    QuietKeeps(sys, rubric);
    InformsOnly(sys, rubric);
    var mid := ApplyAll(sys, rubric);
    OnwardSettles(cfg, mid);
    ApplyConcat(sys, rubric, Onward(cfg, mid));
  }

  lemma FrontIsQuiet(cfg: Config, sys: Sys, t: Turn, rec: TurnRecord, ans: Answer)
    ensures forall w :: w in Front(cfg, sys, t, rec, ans) + [J(TurnCompleted(rec))] ==> Quiet(w)
  {
    hide DeriveWrites, GateWrites;
    var prelude := Prelude(sys, t, rec.turnId, ans);
    DeriveTail(ApplyAll(sys, prelude).log, ProposalsOf(cfg, rec));
  }

  /** What comes after a completion, from the state the completion left. */
  lemma BackFromMid(cfg: Config, sys: Sys, t: Turn, rec: TurnRecord, ans: Answer)
    ensures var mid := ApplyAll(sys, Front(cfg, sys, t, rec, ans) + [J(TurnCompleted(rec))]);
      Back(cfg, sys, t, rec, ans) == Aftermath(cfg, mid, rec)
  {
    hide ApplyAll, Prelude, DeriveWrites, BookSpend, Aftermath;
    var prelude := Prelude(sys, t, rec.turnId, ans);
    var sys1 := ApplyAll(sys, prelude);
    var done := [J(TurnCompleted(rec))];
    var earlier := Earlier(cfg, sys1, rec, ans);
    assert Completion(cfg, sys1, rec, ans) == earlier + done;
    assert (prelude + earlier) + done == prelude + (earlier + done);
    ApplyConcat(sys, prelude, earlier + done);
  }

  lemma FrontWritesItsBody(cfg: Config, sys: Sys, t: Turn, rec: TurnRecord, ans: Answer)
    ensures forall w :: w in Front(cfg, sys, t, rec, ans) ==> w.B? ==> w.record == rec
  {
    hide DeriveWrites, GateWrites;
    var prelude := Prelude(sys, t, rec.turnId, ans);
    DeriveTail(ApplyAll(sys, prelude).log, ProposalsOf(cfg, rec));
  }

  lemma TailWritesNoBody(ws: seq<Write>)
    requires forall w :: w in ws ==> Tail(w)
    ensures forall w :: w in ws ==> !w.B?
  {
    forall w | w in ws
      ensures !w.B?
    {
      assert Tail(w);
    }
  }

  /** Recording the last draft of an uncapped run ends the drafting. */
  lemma LastDraftStops(cfg: Config, good: Calls, sys: Sys, t: Turn, ans: Answer, now: string, rec: TurnRecord)
    requires Ok(cfg, good, sys) && sys.journal != [] && sys.State().status == Running
    requires PlannedTurn(cfg, sys.State().completed, t) && cfg.Z().Has(t.spec.slot) && t.index < |cfg.units|
    requires Accepts(ans, t.spec.schema) && SettledRecord(cfg, sys, t, ans, now) == Some(rec)
    requires AllComplete(cfg, sys.State().completed[rec.turnId := rec]) && EffectiveCap(cfg, sys.State()).None?
    ensures var next := ApplyAll(sys, RecordSpec(cfg, sys, t, ans, now).writes).State();
      && Stopped(next) && next.capRaisedTo == sys.State().capRaisedTo
      && next.completed == sys.State().completed[rec.turnId := rec]
    ensures ApplyAll(sys, RecordSpec(cfg, sys, t, ans, now).writes).bodies.Keys <= sys.bodies.Keys + {rec.turnId}
  {
    AcceptedShape(cfg, good, sys, t, ans, now);
    AcceptedOutcome(cfg, good, sys, t, ans, now);
    hide Fold, ApplyAll, AllComplete, RecordSpec, Front, Back, Aftermath, Inv, Accepts, PlannedTurn;
    var front := Front(cfg, sys, t, rec, ans) + [J(TurnCompleted(rec))];
    var mid := ApplyAll(sys, front);
    FrontIsQuiet(cfg, sys, t, rec, ans);
    QuietKeeps(sys, front);
    BackFromMid(cfg, sys, t, rec, ans);
    ApplyConcat(sys, front, Aftermath(cfg, mid, rec));
    AftermathTail(cfg, mid, rec);
    TailKeepsTurns(mid, Aftermath(cfg, mid, rec));
    AftermathSettles(cfg, mid, rec);
    FrontWritesItsBody(cfg, sys, t, rec, ans);
    OnlyBody(sys, front, rec);
  }

  // --- such a run ---------------------------------------------------------------------------------------------

  /** One request, drafted once and assembled, without a cap. */
  predicate OneDraft(cfg: Config) {
    && cfg.graph.caps.Valid() && |cfg.units| == 1 && cfg.hardCap.None?
    && cfg.graph.stages == [AssociateDraft, Assemble]
  }

  const TheSpec := Spec(Draft(1), AssociateDraft, DraftSchema)
  const TheTurn := Turn(0, TheSpec)

  lemma TheSlot(cfg: Config)
    requires OneDraft(cfg)
    ensures cfg.Z().Has(Draft(1)) && TurnBound(cfg) == 1
  {
  }

  /** What the unit looks like before and after its draft. */
  lemma UnitBefore(cfg: Config)
    requires OneDraft(cfg)
    ensures ViewOf(cfg, map[], 0) == map[] && !UnitComplete(cfg, map[], 0)
    ensures PlanUnit(cfg, map[], 0) == Success([TheSpec])
  {
    assert ViewOf(cfg, map[], 0) == map[];
    assert Draft(1) in Seats(cfg.graph, AssociateDraft);
    assert IsComplete(cfg.graph, map[], cfg.assess(0), cfg.graph.stages[0]) == Pending;
    assert SpecsFor(AssociateDraft, [Draft(1)]) == [TheSpec];
  }

  lemma UnitAfter(cfg: Config, r: TurnRecord)
    requires OneDraft(cfg) && cfg.Z().Has(Draft(1))
    ensures UnitComplete(cfg, map[cfg.Id(0, Draft(1)) := r], 0)
  {
    var c: map<string, TurnRecord> := map[];
    UnitBefore(cfg);
    ViewAfter(cfg, c, 0, Draft(1), r, 0);
    var v := ViewOf(cfg, c[cfg.Id(0, Draft(1)) := r], 0);
    assert Draft(1) in v;
    assert c[cfg.Id(0, Draft(1)) := r] == map[cfg.Id(0, Draft(1)) := r];
    assert IsComplete(cfg.graph, v, cfg.assess(0), cfg.graph.stages[0]) == Done;
    assert IsComplete(cfg.graph, v, cfg.assess(0), cfg.graph.stages[1]) == Done;
  }

  lemma StartsPlain(cfg: Config)
    requires OneDraft(cfg)
    ensures var sys := Sys([RunStarted(cfg.task, cfg.mode)], map[], []);
      && Start(cfg, Empty, false) == Ran([J(RunStarted(cfg.task, cfg.mode))], None)
      && ApplyAll(Empty, Start(cfg, Empty, false).writes) == sys
      && sys.State() == Initial.(task := Some(cfg.task), mode := cfg.mode)
  {
    var e := RunStarted(cfg.task, cfg.mode);
    var sys := Sys([e], map[], []);
    StartedState(cfg);
    hide Finalize, ApplyAll, Fold;
    ApplyOne(Empty, J(e));
    assert Empty.journal + [e] == [e] && [J(e)] + [] == [J(e)];
    NothingYet(cfg, sys);
  }

  lemma StartedState(cfg: Config)
    ensures Fold([RunStarted(cfg.task, cfg.mode)]) == Initial.(task := Some(cfg.task), mode := cfg.mode)
  {
    var e := RunStarted(cfg.task, cfg.mode);
    FoldAppend([], e);
    assert [] + [e] == [e];
  }

  lemma NothingYet(cfg: Config, sys: Sys)
    requires OneDraft(cfg) && sys.State().completed == map[]
    ensures Finalize(cfg, sys) == []
  {
    UnitBefore(cfg);
    hide Fold, UnitComplete, DeriveWrites, RubricGates, Ending, ApplyAll;
    assert !UnitComplete(cfg, sys.State().completed, 0);
    assert !AllComplete(cfg, sys.State().completed);
  }

  lemma OnePlanned(cfg: Config, s: RunState)
    requires OneDraft(cfg) && s.status == Running && s.completed == map[] && cfg.Z().Has(Draft(1))
    ensures Plan(cfg, s) == Success([TheTurn])
    ensures Find(cfg, [TheTurn], cfg.Id(0, Draft(1))) == Some(TheTurn)
    ensures PlannedTurn(cfg, s.completed, TheTurn)
  {
    UnitBefore(cfg);
    hide PlanUnit, ViewOf, UnitComplete;
    assert PlanUnits(cfg, map[], 0) == Success([]);
    assert [TheSpec][..0] == [] && Turns(0, [TheSpec]) == [TheTurn];
    assert PlanUnits(cfg, map[], 1) == Success([TheTurn]);
    PlanUnitsMembers(cfg, map[], 1);
    assert TheTurn in [TheTurn];
    assert [TheTurn][..0] == [];
  }

  lemma StepIsWhole(cfg: Config, sys: Sys, step: Step)
    requires step.reached >= |Call(cfg, sys, step.verb).writes|
    ensures After(cfg, sys, step) == ApplyAll(sys, Call(cfg, sys, step.verb).writes)
  {
    hide Call, ApplyAll;
    var ws := Call(cfg, sys, step.verb).writes;
    assert ws[..|ws|] == ws;
  }

  /** A run that has only just started. */
  ghost predicate JustStarted(cfg: Config, sys: Sys) {
    && sys == Sys([RunStarted(cfg.task, cfg.mode)], map[], [])
    && sys.State() == Initial.(task := Some(cfg.task), mode := cfg.mode)
  }

  lemma StartReaches(cfg: Config) returns (sys: Sys)
    requires OneDraft(cfg)
    ensures Reach(cfg, [Step(StartRun(false), 1)]) == sys && JustStarted(cfg, sys) && Inv(cfg, {}, sys)
  {
    var first := Step(StartRun(false), 1);
    StartsPlain(cfg);
    hide Start, ApplyAll, Fold, Inv;
    StepIsWhole(cfg, Empty, first);
    HistoryKeepsInv(cfg, {}, [first]);
    LastStep(cfg, [], first);
    assert [] + [first] == [first] && Reach(cfg, []) == Empty;
    sys := Sys([RunStarted(cfg.task, cfg.mode)], map[], []);
  }

  lemma RecordsTheDraft(cfg: Config, sys: Sys, ans: Answer, now: string)
    requires OneDraft(cfg) && Accepts(ans, DraftSchema) && cfg.Z().Has(Draft(1)) && JustStarted(cfg, sys)
    ensures RecordTurn(cfg, sys, cfg.Id(0, Draft(1)), ans, now) == RecordSpec(cfg, sys, TheTurn, ans, now)
    ensures PlannedTurn(cfg, sys.State().completed, TheTurn)
  {
    OnePlanned(cfg, sys.State());
    hide RecordSpec, PlannedTurn, Plan, Fold;
  }

  lemma TheRecord(cfg: Config, sys: Sys, ans: Answer, now: string) returns (rec: TurnRecord)
    requires OneDraft(cfg) && Accepts(ans, DraftSchema) && cfg.Z().Has(Draft(1)) && JustStarted(cfg, sys)
    ensures SettledRecord(cfg, sys, TheTurn, ans, now) == Some(rec) && rec.schema == DraftSchema
    ensures rec.turnId == cfg.Id(0, Draft(1)) && AllComplete(cfg, map[rec.turnId := rec])
  {
    hide Fold, UnitComplete;
    rec := SettledRecord(cfg, sys, TheTurn, ans, now).value;
    UnitAfter(cfg, rec);
  }

  /** What recording the draft leaves. */
  ghost predicate Drawn(cfg: Config, sys: Sys)
    requires cfg.Z().Has(Draft(1))
  {
    var s := sys.State();
    && Stopped(s) && Drafted(s.completed) && EffectiveCap(cfg, s).None?
    && s.completed.Keys == {cfg.Id(0, Draft(1))} && sys.bodies.Keys <= {cfg.Id(0, Draft(1))}
  }

  lemma OneRecorded(cfg: Config, sys: Sys, ans: Answer, now: string)
    requires OneDraft(cfg) && Accepts(ans, DraftSchema) && cfg.Z().Has(Draft(1)) && Inv(cfg, {}, sys)
    requires JustStarted(cfg, sys)
    ensures Drawn(cfg, ApplyAll(sys, RecordTurn(cfg, sys, cfg.Id(0, Draft(1)), ans, now).writes))
  {
    var rec := TheRecord(cfg, sys, ans, now);
    RecordsTheDraft(cfg, sys, ans, now);
    StartsRunning(cfg, sys, rec);
    hide *;
    LastDraftStops(cfg, {}, sys, TheTurn, ans, now, rec);
    IsDrawn(cfg, sys, ApplyAll(sys, RecordSpec(cfg, sys, TheTurn, ans, now).writes), rec);
  }

  lemma StartsRunning(cfg: Config, sys: Sys, rec: TurnRecord)
    requires JustStarted(cfg, sys) && OneDraft(cfg) && Inv(cfg, {}, sys)
    ensures Ok(cfg, {}, sys) && sys.journal != [] && sys.State().status == Running && sys.bodies == map[]
    ensures EffectiveCap(cfg, sys.State()).None? && TheTurn.index < |cfg.units|
    ensures sys.State().completed[rec.turnId := rec] == map[rec.turnId := rec]
  {
    hide Inv, Fold;
  }

  lemma IsDrawn(cfg: Config, sys: Sys, next: Sys, rec: TurnRecord)
    requires cfg.Z().Has(Draft(1)) && rec.turnId == cfg.Id(0, Draft(1)) && rec.schema == DraftSchema
    requires EffectiveCap(cfg, sys.State()).None? && sys.bodies == map[] && Stopped(next.State())
    requires next.State().capRaisedTo == sys.State().capRaisedTo
    requires next.State().completed == map[rec.turnId := rec] && next.bodies.Keys <= sys.bodies.Keys + {rec.turnId}
    ensures Drawn(cfg, next)
  {
    hide Fold;
    var c := map[rec.turnId := rec];
    assert rec.turnId in c && c[rec.turnId].schema == DraftSchema;
  }

  /** The one draft of such a run, once accepted, stops it: two calls, one completed turn, which is as many as
      its ceiling. */
  lemma OneDraftRun(cfg: Config, ans: Answer, now: string) returns (history: seq<Step>)
    requires OneDraft(cfg) && Accepts(ans, DraftSchema) && cfg.Z().Has(Draft(1))
    ensures GoodHistory(cfg, {}, history) && Drawn(cfg, Reach(cfg, history))
  {
    hide Call, ApplyAll, Fold, Inv, Drawn, JustStarted, After, OneDraft, Accepts, RecordTurn;
    var sys := StartReaches(cfg);
    OneRecorded(cfg, sys, ans, now);
    var id := cfg.Id(0, Draft(1));
    var first := Step(StartRun(false), 1);
    var second := Step(Record(id, ans, now), |RecordTurn(cfg, sys, id, ans, now).writes|);
    RecordIsWhole(cfg, sys, id, ans, now);
    LastStep(cfg, [first], second);
    history := [first] + [second];
  }

  lemma RecordIsWhole(cfg: Config, sys: Sys, id: string, ans: Answer, now: string)
    ensures var ws := RecordTurn(cfg, sys, id, ans, now).writes;
      After(cfg, sys, Step(Record(id, ans, now), |ws|)) == ApplyAll(sys, ws)
  {
    hide RecordTurn, ApplyAll;
    StepIsWhole(cfg, sys, Step(Record(id, ans, now), |RecordTurn(cfg, sys, id, ans, now).writes|));
  }

  /** And one citation check then takes it past the ceiling: two turns over a bound of one. */
  lemma OneCheckPassesCeiling(cfg: Config, ans: Answer, now: string, c: CheckCall) returns (history: seq<Step>)
    requires OneDraft(cfg) && Accepts(ans, DraftSchema) && Accepts(c.ans, CiteCheckSchema)
    ensures GoodHistory(cfg, {}, history)
    ensures |Reach(cfg, history).State().completed| == 2 && TurnBound(cfg) == 1
  {
    TheSlot(cfg);
    var drafted := OneDraftRun(cfg, ans, now);
    var sys := Reach(cfg, drafted);
    DrawnTakesChecks(cfg, drafted, c);
    var reached := |CheckCitations(cfg, sys, [c], "", Pass, Pass).writes|;
    hide *;
    ChecksPassCeiling(cfg, {}, drafted, [c], "", Pass, Pass, reached);
    history := drafted + [Step(CiteChecks([c], "", Pass, Pass), reached)];
  }

  lemma DrawnTakesChecks(cfg: Config, history: seq<Step>, c: CheckCall)
    requires OneDraft(cfg) && cfg.Z().Has(Draft(1)) && GoodHistory(cfg, {}, history) && Drawn(cfg, Reach(cfg, history))
    requires Accepts(c.ans, CiteCheckSchema)
    ensures var s := Reach(cfg, history).State();
      Stopped(s) && Drafted(s.completed) && |s.completed| == 1 && AllCompletable(cfg, Reach(cfg, history), [c])
  {
    hide Inv;
    var sys := Reach(cfg, history);
    HistoryKeepsInv(cfg, {}, history);
    UnstartedStatus(sys);
    assert |sys.State().completed.Keys| == |sys.State().completed|;
    CheckIsNoSlot(cfg, CheckId(cfg, c.proposition), 0, Draft(1));
    hide Fold, Reach, AllCompletable, Accepts, EffectiveCap;
    assert FreshChecks(cfg, sys, [c]);
    UncappedChecksComplete(cfg, {}, sys, [c]);
  }
}
