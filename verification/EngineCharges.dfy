/** Whatever died and was called again: each completed turn is there because one call recorded it, with the
    output that call carried, and that call is on the spend ledger before the completion is
    (src/mootloop/orchestrator.py:468-711, src/mootloop/citations/check_runner.py:178-312). */
module EngineCharges {
  import opened Wrappers
  import opened Stages
  import opened Journal
  import opened Decisions
  import opened Engine
  import opened EngineSafety
  import opened EngineVerbs
  import opened EngineRuns
  import opened EngineRetry
  import opened EngineReplay

  // --- writes that complete nothing ---------------------------------------------------------------------------

  predicate Finishes(w: Write, id: string) {
    w.J? && w.event.TurnCompleted? && w.event.record.turnId == id
  }

  lemma {:induction false} StaysUncompleted(sys: Sys, ws: seq<Write>, id: string)
    requires forall w :: w in ws ==> !Finishes(w, id)
    ensures id in ApplyAll(sys, ws).State().completed <==> id in sys.State().completed
    decreases |ws|
  {
    if ws != [] {
      assert !Finishes(ws[0], id);
      CompletedChange(sys, ws[0]);
      StaysUncompleted(ApplyWrite(sys, ws[0]), ws[1..], id);
    }
  }

  /** A completed turn keeps its record. */
  lemma {:induction false} CompletedStays(cfg: Config, good: Calls, sys: Sys, ws: seq<Write>, n: nat, id: string)
    requires AllowsAll(cfg, good, sys, ws) && n <= |ws| && id in sys.State().completed
    ensures var c := ApplyAll(sys, ws[..n]).State().completed; id in c && c[id] == sys.State().completed[id]
    decreases n
  {
    if n == 0 {
      assert ws[..0] == [];
    } else {
      CompletedChange(sys, ws[0]);
      assert ws[..n][1..] == ws[1..][..n - 1];
      CompletedStays(cfg, good, ApplyWrite(sys, ws[0]), ws[1..], n - 1, id);
    }
  }

  lemma TailFinishesNone(ws: seq<Write>, id: string)
    requires forall w :: w in ws ==> Tail(w)
    ensures forall w :: w in ws ==> !Finishes(w, id)
  {
    forall w | w in ws
      ensures !Finishes(w, id)
    {
      assert Tail(w);
    }
  }

  lemma ResolveFinishesNone(cfg: Config, sys: Sys, d: Decision, id: string)
    ensures forall w :: w in AfterResolution(cfg, sys, d).writes ==> !Finishes(w, id)
  {
    if d.resolution.Some? {
      var recorded := RecordResolution(sys.journal, d.id, d.resolution.value);
      FinalizeTail(cfg, ApplyAll(sys, recorded.writes));
      TailFinishesNone(Finalize(cfg, ApplyAll(sys, recorded.writes)), id);
    }
  }

  /** Only recording a turn and checking a citation complete anything. */
  lemma OthersFinishNone(cfg: Config, sys: Sys, v: Verb, id: string)
    requires !v.Record? && !v.CiteCheck? && !v.CiteChecks?
    ensures forall w :: w in Call(cfg, sys, v).writes ==> !Finishes(w, id)
  {
    match v
    case StartRun(_) =>
      var mid := ApplyAll(sys, [J(RunStarted(cfg.task, cfg.mode))]);
      FinalizeTail(cfg, mid);
      TailFinishesNone(Finalize(cfg, mid), id);
    case FinalizeNow =>
      FinalizeTail(cfg, sys);
      TailFinishesNone(Finalize(cfg, sys), id);
    case Decide(n, r) =>
      if sys.journal != [] {
        var plan := PlanResolve(sys.log, n, r);
        if plan.Retry? {
          ResolveFinishesNone(cfg, sys, plan.stored, id);
        } else if plan.Fresh? {
          ResolveFinishesNone(cfg, ApplyWrite(sys, D(plan.record)), plan.record, id);
        }
      }
    case _ =>
  }

  // --- a completion and what comes before it -----------------------------------------------------------------

  /** The turn has this call's output, and the call is on the ledger if it can be. */
  ghost predicate Charged(sys: Sys, id: string, ans: Answer) {
    && id in sys.State().completed && ans.output == Some(sys.State().completed[id].output)
    && (ans.usage.Some? && ans.call.Some? ==> SpendsOf(sys.journal, id, ans.call.value) >= 1)
  }

  /** A list of writes that completes a turn only after charging it. */
  lemma CutCharges(sys: Sys, before: seq<Write>, rec: TurnRecord, rest: seq<Write>, ans: Answer, m: nat)
    requires ans.output == Some(rec.output) && rec.turnId !in sys.State().completed
    requires forall w :: w in before ==> !Finishes(w, rec.turnId)
    requires forall w :: w in rest ==> Tail(w)
    requires ans.usage.Some? && ans.call.Some? ==>
      SpendsOf(ApplyAll(sys, before).journal, rec.turnId, ans.call.value) >= 1
    requires m <= |before + [J(TurnCompleted(rec))] + rest|
    requires rec.turnId in ApplyAll(sys, (before + [J(TurnCompleted(rec))] + rest)[..m]).State().completed
    ensures Charged(ApplyAll(sys, (before + [J(TurnCompleted(rec))] + rest)[..m]), rec.turnId, ans)
  {
    var done := [J(TurnCompleted(rec))];
    var ws := before + done + rest;
    if m <= |before| {
      assert ws[..m] == before[..m];
      StaysUncompleted(sys, before[..m], rec.turnId);
      assert false;
    } else {
      var tail := rest[..m - |before| - 1];
      assert ws[..m] == before + done + tail;
      hide Finishes, Charged, ApplyAll, Fold, Tail;
      ApplyConcat(sys, before, done);
      ApplyConcat(sys, before + done, tail);
      CompletesThenTail(ApplyAll(sys, before), rec, tail, ans);
    }
  }

  lemma CompletesThenTail(sys: Sys, rec: TurnRecord, tail: seq<Write>, ans: Answer)
    requires ans.output == Some(rec.output) && forall w :: w in tail ==> Tail(w)
    requires ans.usage.Some? && ans.call.Some? ==> SpendsOf(sys.journal, rec.turnId, ans.call.value) >= 1
    ensures Charged(ApplyAll(ApplyAll(sys, [J(TurnCompleted(rec))]), tail), rec.turnId, ans)
  {
    hide ApplyAll, Fold, Tail, SpendsOf;
    var done := [J(TurnCompleted(rec))];
    ApplyOne(sys, done[0]);
    var next := ApplyWrite(sys, done[0]);
    CompletedChange(sys, done[0]);
    TailKeepsTurns(next, tail);
    hide ApplyWrite;
    if ans.usage.Some? && ans.call.Some? {
      SpendsGrow(sys, done, rec.turnId, ans.call.value);
      SpendsGrow(next, tail, rec.turnId, ans.call.value);
    }
  }

  // --- recording a turn ---------------------------------------------------------------------------------------

  lemma DiscardFinishesNone(cfg: Config, sys: Sys, turn: string, ans: Answer, id: string)
    ensures forall w :: w in Discard(cfg, sys, turn, ans) ==> !Finishes(w, id)
  {
  }

  lemma NotesFinishNone(ws: seq<Write>, id: string)
    requires forall w :: w in ws ==> Notes(w)
    ensures forall w :: w in ws ==> !Finishes(w, id)
  {
    NotesTail(ws);
    TailFinishesNone(ws, id);
  }

  lemma PreludeFinishesNone(sys: Sys, t: Turn, turn: string, ans: Answer, id: string)
    ensures forall w :: w in Prelude(sys, t, turn, ans) ==> !Finishes(w, id)
  {
    NotesFinishNone(Prelude(sys, t, turn, ans), id);
  }

  lemma RejectedFinishesNone(cfg: Config, sys: Sys, t: Turn, ans: Answer, now: string, id: string)
    requires cfg.Z().Has(t.spec.slot) && t.index < |cfg.units| && !Accepts(ans, t.spec.schema)
    ensures forall w :: w in RecordSpec(cfg, sys, t, ans, now).writes ==> !Finishes(w, id)
  {
    hide Discard, GateWrites, ApplyAll;
    var turn := cfg.Id(t.index, t.spec.slot);
    var gates := GateWrites(turn, ans.gates);
    NotesFinishNone(gates, id);
    DiscardFinishesNone(cfg, sys, turn, ans, id);
    DiscardFinishesNone(cfg, ApplyAll(sys, gates), turn, ans, id);
  }

  /** What comes before the completion, whether or not the call has an id. */
  function Earlier(cfg: Config, sys: Sys, rec: TurnRecord, ans: Answer): seq<Write> {
    (if rec.turnId in sys.bodies then [] else [B(rec)])
    + DeriveWrites(sys.log, ProposalsOf(cfg, rec))
    + BookSpend(sys, rec.turnId, ans, ans.call.Some?)
  }

  function SettledRecord(cfg: Config, sys: Sys, t: Turn, ans: Answer, now: string): (rec: Option<TurnRecord>)
    requires cfg.Z().Has(t.spec.slot) && t.index < |cfg.units| && ans.output.Some?
    ensures rec.Some? ==> rec.value.turnId == cfg.Id(t.index, t.spec.slot) && ans.output == Some(rec.value.output)
  {
    SettleBody(sys.bodies, RecordOf(cfg, sys.State(), t, ans, now))
  }

  function Front(cfg: Config, sys: Sys, t: Turn, rec: TurnRecord, ans: Answer): seq<Write> {
    Prelude(sys, t, rec.turnId, ans) + Earlier(cfg, ApplyAll(sys, Prelude(sys, t, rec.turnId, ans)), rec, ans)
  }

  function Back(cfg: Config, sys: Sys, t: Turn, rec: TurnRecord, ans: Answer): seq<Write> {
    var sys1 := ApplyAll(sys, Prelude(sys, t, rec.turnId, ans));
    Aftermath(cfg, ApplyAll(sys1, Completion(cfg, sys1, rec, ans)), rec)
  }

  lemma AcceptedShape(cfg: Config, good: Calls, sys: Sys, t: Turn, ans: Answer, now: string)
    requires Ok(cfg, good, sys) && sys.journal != []
    requires t.index < |cfg.units| && cfg.Z().Has(t.spec.slot) && Accepts(ans, t.spec.schema)
    ensures var id := cfg.Id(t.index, t.spec.slot);
      var rec := SettledRecord(cfg, sys, t, ans, now);
      RecordSpec(cfg, sys, t, ans, now).writes
      == if rec.None? then Prelude(sys, t, id, ans)
         else Front(cfg, sys, t, rec.value, ans) + [J(TurnCompleted(rec.value))] + Back(cfg, sys, t, rec.value, ans)
  {
    hide Inv, Prelude, DeriveWrites, Aftermath, ApplyAll, RecordOf, BookSpend, ProposalsOf, Fold, Conforms;
    var id := cfg.Id(t.index, t.spec.slot);
    PreludeAllowed(cfg, good, sys, t, id, ans);
    var sys1 := ApplyAll(sys, Prelude(sys, t, id, ans));
    var rec := SettledRecord(cfg, sys, t, ans, now);
    if rec.Some? {
      SpecWrites(cfg, sys, t, ans, now, sys1, rec.value);
      assert Completion(cfg, sys1, rec.value, ans)
          == Earlier(cfg, sys1, rec.value, ans) + [J(TurnCompleted(rec.value))];
    }
  }

  lemma FrontFinishesNone(cfg: Config, sys: Sys, t: Turn, rec: TurnRecord, ans: Answer, id: string)
    ensures forall w :: w in Front(cfg, sys, t, rec, ans) ==> !Finishes(w, id)
  {
    hide Prelude, DeriveWrites;
    var prelude := Prelude(sys, t, rec.turnId, ans);
    PreludeFinishesNone(sys, t, rec.turnId, ans, id);
    DeriveTail(ApplyAll(sys, prelude).log, ProposalsOf(cfg, rec));
  }

  lemma FrontCharges(cfg: Config, sys: Sys, t: Turn, rec: TurnRecord, ans: Answer)
    ensures ans.usage.Some? && ans.call.Some? ==>
      SpendsOf(ApplyAll(sys, Front(cfg, sys, t, rec, ans)).journal, rec.turnId, ans.call.value) >= 1
  {
    hide Prelude, DeriveWrites, ProposalsOf, BookSpend, ApplyAll, SpendsOf;
    if ans.usage.Some? && ans.call.Some? {
      ChargedBefore(cfg, sys, t, rec, ans);
      assert Front(cfg, sys, t, rec, ans) == Before(cfg, sys, t, rec, ans);
    }
  }

  lemma BackIsTail(cfg: Config, sys: Sys, t: Turn, rec: TurnRecord, ans: Answer)
    ensures forall w :: w in Back(cfg, sys, t, rec, ans) ==> Tail(w)
  {
    hide Aftermath;
    var sys1 := ApplyAll(sys, Prelude(sys, t, rec.turnId, ans));
    AftermathTail(cfg, ApplyAll(sys1, Completion(cfg, sys1, rec, ans)), rec);
  }

  lemma AcceptedCharges(cfg: Config, good: Calls, sys: Sys, t: Turn, ans: Answer, now: string, m: nat)
    requires Ok(cfg, good, sys) && sys.journal != []
    requires t.index < |cfg.units| && cfg.Z().Has(t.spec.slot) && Accepts(ans, t.spec.schema)
    requires cfg.Id(t.index, t.spec.slot) !in sys.State().completed
    requires m <= |RecordSpec(cfg, sys, t, ans, now).writes|
    requires cfg.Id(t.index, t.spec.slot)
          in ApplyAll(sys, RecordSpec(cfg, sys, t, ans, now).writes[..m]).State().completed
    ensures Charged(ApplyAll(sys, RecordSpec(cfg, sys, t, ans, now).writes[..m]), cfg.Id(t.index, t.spec.slot), ans)
  {
    var id := cfg.Id(t.index, t.spec.slot);
    AcceptedShape(cfg, good, sys, t, ans, now);
    var rec := SettledRecord(cfg, sys, t, ans, now);
    var ws := RecordSpec(cfg, sys, t, ans, now).writes;
    hide RecordSpec, Front, Back, Prelude, SettledRecord, ApplyAll, Fold, Charged, Inv, Accepts;
    if rec.None? {
      PreludeFinishesNone(sys, t, id, ans, id);
      StaysUncompleted(sys, ws[..m], id);
      assert false;
    } else {
      FrontFinishesNone(cfg, sys, t, rec.value, ans, id);
      FrontCharges(cfg, sys, t, rec.value, ans);
      BackIsTail(cfg, sys, t, rec.value, ans);
      CutCharges(sys, Front(cfg, sys, t, rec.value, ans), rec.value, Back(cfg, sys, t, rec.value, ans), ans, m);
    }
  }

  lemma AcceptedFinishesOwn(cfg: Config, good: Calls, sys: Sys, t: Turn, ans: Answer, now: string, other: string)
    requires Ok(cfg, good, sys) && sys.journal != []
    requires t.index < |cfg.units| && cfg.Z().Has(t.spec.slot) && Accepts(ans, t.spec.schema)
    requires other != cfg.Id(t.index, t.spec.slot)
    ensures forall w :: w in RecordSpec(cfg, sys, t, ans, now).writes ==> !Finishes(w, other)
  {
    AcceptedShape(cfg, good, sys, t, ans, now);
    var rec := SettledRecord(cfg, sys, t, ans, now);
    hide RecordSpec, Front, Back, Prelude, SettledRecord;
    PreludeFinishesNone(sys, t, cfg.Id(t.index, t.spec.slot), ans, other);
    if rec.Some? {
      FrontFinishesNone(cfg, sys, t, rec.value, ans, other);
      BackIsTail(cfg, sys, t, rec.value, ans);
      TailFinishesNone(Back(cfg, sys, t, rec.value, ans), other);
    }
  }

  /** A recording call completes no turn but its own, and only after charging it. */
  lemma RecordCharges(cfg: Config, good: Calls, sys: Sys, turn: string, ans: Answer, now: string, m: nat, id: string)
    requires Ok(cfg, good, sys) && id !in sys.State().completed
    requires m <= |RecordTurn(cfg, sys, turn, ans, now).writes|
    requires id in ApplyAll(sys, RecordTurn(cfg, sys, turn, ans, now).writes[..m]).State().completed
    ensures turn == id && Charged(ApplyAll(sys, RecordTurn(cfg, sys, turn, ans, now).writes[..m]), id, ans)
  {
    hide Inv, RecordSpec, Finalize, ApplyAll, PlanUnits, Fold, Charged;
    var s := sys.State();
    var ws := RecordTurn(cfg, sys, turn, ans, now).writes;
    if ws == [] {
      StaysUncompleted(sys, ws[..m], id);
      assert false;
    } else if turn in s.completed {
      var spend := BookSpend(sys, turn, ans, true);
      FinalizeTail(cfg, ApplyAll(sys, spend));
      TailFinishesNone(ws, id);
      StaysUncompleted(sys, ws[..m], id);
      assert false;
    } else {
      assert s.status == Running && Plan(cfg, s).Success?;
      var t := Find(cfg, Plan(cfg, s).value, turn).value;
      if !Accepts(ans, t.spec.schema) {
        RejectedFinishesNone(cfg, sys, t, ans, now, id);
        StaysUncompleted(sys, ws[..m], id);
        assert false;
      } else if turn != id {
        AcceptedFinishesOwn(cfg, good, sys, t, ans, now, id);
        StaysUncompleted(sys, ws[..m], id);
        assert false;
      } else {
        AcceptedCharges(cfg, good, sys, t, ans, now, m);
      }
    }
  }

  // --- checking a citation ------------------------------------------------------------------------------------

  lemma ReserveFinishesNone(sys: Sys, turn: string, usd: real, id: string)
    ensures forall w :: w in ReserveWrites(sys, turn, usd) ==> !Finishes(w, id)
  {
  }

  lemma CheckEarlier(sys: Sys, rec: TurnRecord, ans: Answer)
    ensures var before := CheckCompletion(sys, rec, ans)[..|CheckCompletion(sys, rec, ans)| - 1];
      && CheckCompletion(sys, rec, ans) == before + [J(TurnCompleted(rec))]
      && (forall w :: w in before ==> !Finishes(w, rec.turnId))
      && (ans.usage.Some? && ans.call.Some? ==>
            SpendsOf(ApplyAll(sys, before).journal, rec.turnId, ans.call.value) >= 1)
  {
    hide ApplyAll, Fold, SpendsOf;
    var body := if rec.turnId in sys.bodies then [] else [B(rec)];
    var spend := BookSpend(sys, rec.turnId, ans, true);
    assert CheckCompletion(sys, rec, ans)[..|CheckCompletion(sys, rec, ans)| - 1] == body + spend;
    NoEvents(sys, body);
    ApplyConcat(sys, body, spend);
    if ans.usage.Some? && ans.call.Some? {
      assert BookSpend(ApplyAll(sys, body), rec.turnId, ans, true) == spend;
      BookedAfterSpend(ApplyAll(sys, body), rec.turnId, ans);
    }
  }

  /** A check completes no turn but its own, and only after charging it. */
  lemma CheckCharges(cfg: Config, sys: Sys, c: CheckCall, m: nat, id: string)
    requires id !in sys.State().completed && m <= |CheckOne(cfg, sys, c).writes|
    requires id in ApplyAll(sys, CheckOne(cfg, sys, c).writes[..m]).State().completed
    ensures CheckId(cfg, c.proposition) == id
    ensures Charged(ApplyAll(sys, CheckOne(cfg, sys, c).writes[..m]), id, c.ans)
  {
    hide ApplyAll, Fold, Charged, ReserveWrites, CheckCompletion, OverCap;
    var turn := CheckId(cfg, c.proposition);
    var ws := CheckOne(cfg, sys, c).writes;
    var reserve := ReserveWrites(sys, turn, c.maxUsd);
    ReserveFinishesNone(sys, turn, c.maxUsd, id);
    if ws == [] || ws == reserve {
      StaysUncompleted(sys, ws[..m], id);
      assert false;
    } else {
      var sys1 := ApplyAll(sys, reserve);
      var rec := SettleBody(sys1.bodies, CheckRecord(cfg, c)).value;
      assert ws == reserve + CheckCompletion(sys1, rec, c.ans);
      CheckEarlier(sys1, rec, c.ans);
      var completion := CheckCompletion(sys1, rec, c.ans);
      var before := completion[..|completion| - 1];
      if rec.turnId != id {
        CheckFinishesOwn(sys1, rec, c.ans, id);
        StaysUncompleted(sys, ws[..m], id);
        assert false;
      } else {
        ApplyConcat(sys, reserve, before);
        assert ws == (reserve + before) + [J(TurnCompleted(rec))] + [];
        CutCharges(sys, reserve + before, rec, [], c.ans, m);
      }
    }
  }

  lemma CheckFinishesOwn(sys: Sys, rec: TurnRecord, ans: Answer, id: string)
    requires rec.turnId != id
    ensures forall w :: w in CheckCompletion(sys, rec, ans) ==> !Finishes(w, id)
  {
  }

  lemma ChargedStays(cfg: Config, good: Calls, sys: Sys, ws: seq<Write>, n: nat, id: string, ans: Answer)
    requires AllowsAll(cfg, good, sys, ws) && n <= |ws| && Charged(sys, id, ans)
    ensures Charged(ApplyAll(sys, ws[..n]), id, ans)
  {
    CompletedStays(cfg, good, sys, ws, n, id);
    if ans.call.Some? {
      SpendsGrow(sys, ws[..n], id, ans.call.value);
    }
  }

  ghost predicate IsCheckOf(cfg: Config, c: CheckCall, id: string, ans: Answer) {
    CheckId(cfg, c.proposition) == id && c.ans == ans
  }

  lemma {:induction false} EachCharges(cfg: Config, good: Calls, sys: Sys, calls: seq<CheckCall>, m: nat, id: string)
      returns (c: CheckCall)
    requires Ok(cfg, good, sys) && sys.journal != [] && id !in sys.State().completed
    requires m <= |CheckEach(cfg, sys, calls).writes|
    requires id in ApplyAll(sys, CheckEach(cfg, sys, calls).writes[..m]).State().completed
    ensures c in calls && CheckId(cfg, c.proposition) == id
    ensures Charged(ApplyAll(sys, CheckEach(cfg, sys, calls).writes[..m]), id, c.ans)
    decreases |calls|
  {
    hide CheckOne, ApplyAll, Inv, Fold, Charged;
    var ws := CheckEach(cfg, sys, calls).writes;
    if calls == [] {
      StaysUncompleted(sys, ws[..m], id);
      assert false;
      c := CheckCall("", 0.0, Answer(None, [], false, None, None), "", false);
    } else {
      var first := CheckOne(cfg, sys, calls[0]).writes;
      if m <= |first| {
        assert ws[..m] == first[..m];
        c := calls[0];
        CheckCharges(cfg, sys, c, m, id);
      } else {
        CheckAllowed(cfg, good, sys, calls[0]);
        var next := ApplyAll(sys, first);
        var rest := CheckEach(cfg, next, calls[1..]).writes;
        assert ws[..m] == first + rest[..m - |first|];
        ApplyConcat(sys, first, rest[..m - |first|]);
        if id in next.State().completed {
          c := calls[0];
          assert first[..|first|] == first;
          CheckCharges(cfg, sys, c, |first|, id);
          CheckEachAllowed(cfg, good, next, calls[1..]);
          ChargedStays(cfg, good, next, rest, m - |first|, id, c.ans);
        } else {
          c := EachCharges(cfg, good, next, calls[1..], m - |first|, id);
        }
      }
    }
  }

  lemma ChecksCharge(cfg: Config, good: Calls, sys: Sys, v: Verb, m: nat, id: string) returns (c: CheckCall)
    requires Ok(cfg, good, sys) && v.CiteChecks? && id !in sys.State().completed
    requires m <= |Call(cfg, sys, v).writes|
    requires id in ApplyAll(sys, Call(cfg, sys, v).writes[..m]).State().completed
    ensures c in v.calls && CheckId(cfg, c.proposition) == id
    ensures Charged(ApplyAll(sys, Call(cfg, sys, v).writes[..m]), id, c.ans)
  {
    hide CheckEach, ApplyAll, Inv, Fold, Charged;
    var ws := Call(cfg, sys, v).writes;
    if ws == [] {
      StaysUncompleted(sys, ws[..m], id);
      assert false;
    }
    var each := CheckEach(cfg, sys, v.calls).writes;
    assert sys.journal != [] && each <= ws && forall w :: w in ws[|each|..] ==> Notes(w);
    hide Call;
    if m <= |each| {
      assert ws[..m] == each[..m];
      c := EachCharges(cfg, good, sys, v.calls, m, id);
    } else {
      var gates := ws[|each|..];
      assert ws[..m] == each + gates[..m - |each|];
      c := EachChargesFirst(cfg, good, sys, v.calls, gates, m - |each|, id);
    }
  }

  /** The gates after the checks complete nothing: the checks did. */
  lemma EachChargesFirst(cfg: Config, good: Calls, sys: Sys, calls: seq<CheckCall>, gates: seq<Write>, n: nat,
                         id: string)
      returns (c: CheckCall)
    requires Ok(cfg, good, sys) && sys.journal != [] && id !in sys.State().completed
    requires n <= |gates| && forall w :: w in gates ==> Notes(w)
    requires id in ApplyAll(sys, CheckEach(cfg, sys, calls).writes + gates[..n]).State().completed
    ensures c in calls && CheckId(cfg, c.proposition) == id
    ensures Charged(ApplyAll(sys, CheckEach(cfg, sys, calls).writes + gates[..n]), id, c.ans)
  {
    hide CheckEach, ApplyAll, Inv, Fold, Charged, Notes, Finishes;
    var each := CheckEach(cfg, sys, calls).writes;
    var mid := ApplyAll(sys, each);
    ApplyConcat(sys, each, gates[..n]);
    CheckEachAllowed(cfg, good, sys, calls);
    NotesFinishNone(gates, id);
    StaysUncompleted(mid, gates[..n], id);
    assert each[..|each|] == each;
    c := EachCharges(cfg, good, sys, calls, |each|, id);
    NotesAllowed(cfg, good, mid, gates);
    ChargedStays(cfg, good, mid, gates, n, id, c.ans);
  }

  // --- every history --------------------------------------------------------------------------------------------

  /** The verb carried this answer for this turn. */
  ghost predicate Carries(cfg: Config, v: Verb, id: string, ans: Answer) {
    match v
    case Record(turn, a, _) => turn == id && a == ans
    case CiteCheck(c) => IsCheckOf(cfg, c, id, ans)
    case CiteChecks(calls, _, _, _) => exists c :: c in calls && IsCheckOf(cfg, c, id, ans)
    case _ => false
  }

  lemma VerbCharges(cfg: Config, good: Calls, sys: Sys, v: Verb, m: nat, id: string) returns (ans: Answer)
    requires Ok(cfg, good, sys) && id !in sys.State().completed
    requires m <= |Call(cfg, sys, v).writes|
    requires id in ApplyAll(sys, Call(cfg, sys, v).writes[..m]).State().completed
    ensures Carries(cfg, v, id, ans) && Charged(ApplyAll(sys, Call(cfg, sys, v).writes[..m]), id, ans)
  {
    hide ApplyAll, Inv, Fold, Charged, RecordTurn, CheckOne, CheckCitations;
    var ws := Call(cfg, sys, v).writes;
    if v.Record? {
      ans := v.ans;
      RecordCharges(cfg, good, sys, v.id, v.ans, v.now, m, id);
    } else if v.CiteChecks? {
      var c := ChecksCharge(cfg, good, sys, v, m, id);
      assert IsCheckOf(cfg, c, id, c.ans);
      ans := c.ans;
    } else if v.CiteCheck? && sys.journal != [] {
      ans := v.check.ans;
      CheckCharges(cfg, sys, v.check, m, id);
    } else {
      ans := Answer(None, [], false, None, None);
      if !v.CiteCheck? {
        OthersFinishNone(cfg, sys, v, id);
      }
      StaysUncompleted(sys, ws[..m], id);
      assert false;
    }
  }

  /** The `k`-th call of the history completed the turn, and it carried this answer for it. */
  ghost predicate CompletedBy(cfg: Config, history: seq<Step>, k: nat, id: string, ans: Answer) {
    && k < |history| && Carries(cfg, history[k].verb, id, ans)
    && id !in Reach(cfg, history[..k]).State().completed && id in Reach(cfg, history[..k + 1]).State().completed
  }

  /** In every state any history can reach, each completed turn was completed by one call of the history
      that carried its output, and that call, if it has an id and usage, is on the ledger: exactly once when
      its results are always accepted. */
  lemma EveryCompletionIsCharged(cfg: Config, good: Calls, history: seq<Step>, id: string)
      returns (k: nat, ans: Answer)
    requires cfg.graph.caps.Valid() && GoodHistory(cfg, good, history)
    requires id in Reach(cfg, history).State().completed
    ensures CompletedBy(cfg, history, k, id, ans) && Charged(Reach(cfg, history), id, ans)
    ensures ans.usage.Some? && ans.call.Some? && (id, ans.call.value) in good ==>
      SpendsOf(Reach(cfg, history).journal, id, ans.call.value) == 1
  {
    k, ans := Explain(cfg, good, history, id);
    hide *;
    ChargedOncePerCall(cfg, good, history, id, ans);
  }

  ghost predicate HasCompleted(cfg: Config, history: seq<Step>, id: string) {
    id in Reach(cfg, history).State().completed
  }

  ghost predicate Explained(cfg: Config, history: seq<Step>, id: string, k: nat, ans: Answer) {
    CompletedBy(cfg, history, k, id, ans) && Charged(Reach(cfg, history), id, ans)
  }

  lemma {:induction false} Explain(cfg: Config, good: Calls, history: seq<Step>, id: string)
      returns (k: nat, ans: Answer)
    requires cfg.graph.caps.Valid() && GoodHistory(cfg, good, history) && HasCompleted(cfg, history, id)
    ensures Explained(cfg, history, id, k, ans)
  {
    NothingWithoutHistory(cfg, history, id);
    hide *;
    var front, step := history[..|history| - 1], history[|history| - 1];
    assert history == front + [step];
    FrontIsGood(cfg, good, front, step);
    if HasCompleted(cfg, front, id) {
      k, ans := Explain(cfg, good, front, id);
      LaterCharged(cfg, good, front, step, k, id, ans);
    } else {
      k := |front|;
      ans := NewlyCharged(cfg, good, front, step, id);
    }
  }

  lemma NothingWithoutHistory(cfg: Config, history: seq<Step>, id: string)
    requires HasCompleted(cfg, history, id)
    ensures history != []
  {
  }

  lemma FrontIsGood(cfg: Config, good: Calls, front: seq<Step>, step: Step)
    requires GoodHistory(cfg, good, front + [step])
    ensures GoodHistory(cfg, good, front) && GoodVerb(cfg, good, step.verb)
  {
    hide GoodVerb;
    assert forall i :: 0 <= i < |front| ==> (front + [step])[i] == front[i];
    assert (front + [step])[|front|] == step;
  }

  lemma ReachStep(cfg: Config, front: seq<Step>, step: Step)
    ensures Reach(cfg, front + [step]) == After(cfg, Reach(cfg, front), step)
  {
    hide After;
    assert (front + [step])[..|front|] == front;
  }

  /** A turn charged before is charged still. */
  lemma LaterCharged(cfg: Config, good: Calls, front: seq<Step>, step: Step, k: nat, id: string, ans: Answer)
    requires cfg.graph.caps.Valid() && GoodHistory(cfg, good, front) && GoodVerb(cfg, good, step.verb)
    requires Explained(cfg, front, id, k, ans)
    ensures Explained(cfg, front + [step], id, k, ans)
  {
    HistoryKeepsInv(cfg, good, front);
    hide After, Inv, Fold, Charged, Carries, GoodVerb, Call, CompletedBy, Reach;
    LaterStill(cfg, front, step, k, id, ans);
    StepKeepsCharged(cfg, good, Reach(cfg, front), step, id, ans);
    ReachStep(cfg, front, step);
  }

  /** The call that completed a turn charged it. */
  lemma NewlyCharged(cfg: Config, good: Calls, front: seq<Step>, step: Step, id: string) returns (ans: Answer)
    requires cfg.graph.caps.Valid() && GoodHistory(cfg, good, front)
    requires !HasCompleted(cfg, front, id) && HasCompleted(cfg, front + [step], id)
    ensures Explained(cfg, front + [step], id, |front|, ans)
  {
    HistoryKeepsInv(cfg, good, front);
    hide After, Inv, Fold, Charged, Carries, GoodVerb, Call, CompletedBy, Reach;
    ReachStep(cfg, front, step);
    ans := StepCharges(cfg, good, Reach(cfg, front), step, id);
    assert (front + [step])[..|front|] == front;
    CompletedLast(cfg, front + [step], id, ans);
  }

  lemma CompletedLast(cfg: Config, history: seq<Step>, id: string, ans: Answer)
    requires history != [] && Carries(cfg, history[|history| - 1].verb, id, ans)
    requires id !in Reach(cfg, history[..|history| - 1]).State().completed
    requires id in Reach(cfg, history).State().completed
    ensures CompletedBy(cfg, history, |history| - 1, id, ans)
  {
    hide Reach, Carries, Fold;
    assert history[..|history|] == history;
  }

  lemma LaterStill(cfg: Config, front: seq<Step>, step: Step, k: nat, id: string, ans: Answer)
    requires CompletedBy(cfg, front, k, id, ans)
    ensures CompletedBy(cfg, front + [step], k, id, ans)
  {
    hide Reach, Carries, Fold;
    assert (front + [step])[..k] == front[..k] && (front + [step])[..k + 1] == front[..k + 1];
  }

  lemma StepKeepsCharged(cfg: Config, good: Calls, sys: Sys, step: Step, id: string, ans: Answer)
    requires Ok(cfg, good, sys) && GoodVerb(cfg, good, step.verb) && Charged(sys, id, ans)
    ensures Charged(After(cfg, sys, step), id, ans)
  {
    hide ApplyAll, Inv, Fold, Charged, Call;
    var ws := Call(cfg, sys, step.verb).writes;
    CallAllowed(cfg, good, sys, step.verb);
    ChargedStays(cfg, good, sys, ws, if step.reached < |ws| then step.reached else |ws|, id, ans);
  }

  lemma StepCharges(cfg: Config, good: Calls, sys: Sys, step: Step, id: string) returns (ans: Answer)
    requires Ok(cfg, good, sys) && id !in sys.State().completed
    requires id in After(cfg, sys, step).State().completed
    ensures Carries(cfg, step.verb, id, ans) && Charged(After(cfg, sys, step), id, ans)
  {
    hide ApplyAll, Inv, Fold, Charged, Call, Carries;
    var ws := Call(cfg, sys, step.verb).writes;
    ans := VerbCharges(cfg, good, sys, step.verb, if step.reached < |ws| then step.reached else |ws|, id);
  }

  lemma ChargedOncePerCall(cfg: Config, good: Calls, history: seq<Step>, id: string, ans: Answer)
    requires cfg.graph.caps.Valid() && GoodHistory(cfg, good, history)
    requires Charged(Reach(cfg, history), id, ans)
    ensures ans.usage.Some? && ans.call.Some? && (id, ans.call.value) in good ==>
      SpendsOf(Reach(cfg, history).journal, id, ans.call.value) == 1
  {
    TurnsExactlyOnce(cfg, good, history, id);
  }
}
