/** A recording call that died after any of its writes, made again with the same provider result, ends
    as if it had never died (src/mootloop/orchestrator.py:468-695, src/mootloop/journal.py:84-121). */
module EngineReplay {
  import opened Wrappers
  import opened Journal
  import opened Engine
  import opened EngineSafety
  import opened EngineVerbs
  import opened EngineRetry

  /** A call whose turn is planned, whose result the turn accepts, and which carries its id and usage. */
  ghost predicate Recordable(cfg: Config, good: Calls, sys: Sys, t: Turn, ans: Answer, now: string) {
    && Ok(cfg, good, sys) && sys.journal != [] && sys.State().status == Running
    && Plan(cfg, sys.State()).Success? && t.index < |cfg.units| && cfg.Z().Has(t.spec.slot)
    && Find(cfg, Plan(cfg, sys.State()).value, cfg.Id(t.index, t.spec.slot)) == Some(t)
    && Accepts(ans, t.spec.schema) && ans.usage.Some? && ans.call.Some?
    && (cfg.Id(t.index, t.spec.slot), ans.call.value) in good
    && GoodCall(cfg, good, cfg.Id(t.index, t.spec.slot), ans)
    && SettleBody(sys.bodies, RecordOf(cfg, sys.State(), t, ans, now)).Some?
  }

  function RecordFor(cfg: Config, sys: Sys, t: Turn, ans: Answer, now: string): (rec: TurnRecord)
    requires cfg.Z().Has(t.spec.slot) && t.index < |cfg.units| && ans.output.Some?
    requires SettleBody(sys.bodies, RecordOf(cfg, sys.State(), t, ans, now)).Some?
    ensures rec.turnId == cfg.Id(t.index, t.spec.slot) && rec.output == ans.output.value
  {
    SettleBody(sys.bodies, RecordOf(cfg, sys.State(), t, ans, now)).value
  }

  /** The writes before the completion. */
  function Before(cfg: Config, sys: Sys, t: Turn, rec: TurnRecord, ans: Answer): seq<Write> {
    var prelude := Prelude(sys, t, rec.turnId, ans);
    var sys1 := ApplyAll(sys, prelude);
    prelude + (if rec.turnId in sys1.bodies then [] else [B(rec)])
    + DeriveWrites(sys1.log, ProposalsOf(cfg, rec))
    + BookSpend(sys1, rec.turnId, ans, true)
  }

  lemma BeforeInforms(cfg: Config, sys: Sys, t: Turn, rec: TurnRecord, ans: Answer)
    ensures forall w :: w in Before(cfg, sys, t, rec, ans) ==> Informs(w) && (w.B? ==> w.record == rec)
  {
    var sys1 := ApplyAll(sys, Prelude(sys, t, rec.turnId, ans));
    DeriveTail(sys1.log, ProposalsOf(cfg, rec));
  }

  lemma RecordsThePlanned(cfg: Config, good: Calls, sys: Sys, t: Turn, ans: Answer, now: string)
    requires Recordable(cfg, good, sys, t, ans, now)
    ensures PlannedTurn(cfg, sys.State().completed, t)
    ensures RecordTurn(cfg, sys, cfg.Id(t.index, t.spec.slot), ans, now) == RecordSpec(cfg, sys, t, ans, now)
  {
    hide Inv, RecordSpec, PlanUnits, GoodCall, SettleBody;
    FoundIsPlanned(cfg, sys.State(), cfg.Id(t.index, t.spec.slot));
    PlannedIsNew(cfg, sys.State().completed, t);
  }

  lemma CompletionShape(cfg: Config, sys: Sys, t: Turn, rec: TurnRecord, ans: Answer)
    requires ans.call.Some?
    ensures var prelude := Prelude(sys, t, rec.turnId, ans);
      prelude + Completion(cfg, ApplyAll(sys, prelude), rec, ans)
      == Before(cfg, sys, t, rec, ans) + [J(TurnCompleted(rec))]
  {
    var prelude := Prelude(sys, t, rec.turnId, ans);
    var sys1 := ApplyAll(sys, prelude);
    var body := if rec.turnId in sys1.bodies then [] else [B(rec)];
    var gates := DeriveWrites(sys1.log, ProposalsOf(cfg, rec));
    var spend := BookSpend(sys1, rec.turnId, ans, true);
    Regroup(prelude, body, gates, spend, [J(TurnCompleted(rec))]);
  }

  lemma Regroup(a: seq<Write>, b: seq<Write>, c: seq<Write>, d: seq<Write>, e: seq<Write>)
    ensures a + (b + c + d + e) == (a + b + c + d) + e
  {
  }

  lemma RecordShape(cfg: Config, good: Calls, sys: Sys, t: Turn, ans: Answer, now: string)
    requires Recordable(cfg, good, sys, t, ans, now)
    ensures var rec := RecordFor(cfg, sys, t, ans, now);
      var before := Before(cfg, sys, t, rec, ans);
      var ran := RecordTurn(cfg, sys, rec.turnId, ans, now);
      && (ran.error.None? || ran.error == Some(PlanRaised))
      && before + [J(TurnCompleted(rec))] <= ran.writes
      && forall w :: w in ran.writes[|before| + 1..] ==> Tail(w)
  {
    var rec := RecordFor(cfg, sys, t, ans, now);
    hide Inv, RecordSpec, RecordTurn, PlanUnits, GoodCall, Completion, Aftermath, Prelude, Before, Finalize;
    RecordsThePlanned(cfg, good, sys, t, ans, now);
    PreludeAllowed(cfg, good, sys, t, rec.turnId, ans);
    var sys1 := ApplyAll(sys, Prelude(sys, t, rec.turnId, ans));
    SpecWrites(cfg, sys, t, ans, now, sys1, rec);
    CompletionShape(cfg, sys, t, rec, ans);
    AftermathTail(cfg, ApplyAll(sys1, Completion(cfg, sys1, rec, ans)), rec);
  }

  lemma {:induction false} OnlyBody(sys: Sys, ws: seq<Write>, rec: TurnRecord)
    requires forall w :: w in ws ==> w.B? ==> w.record == rec
    ensures var after := ApplyAll(sys, ws).bodies; after == sys.bodies || after == sys.bodies[rec.turnId := rec]
    decreases |ws|
  {
    if ws != [] {
      var next := ApplyWrite(sys, ws[0]);
      assert ws[0] in ws;
      OnlyBody(next, ws[1..], rec);
      assert sys.bodies[rec.turnId := rec][rec.turnId := rec] == sys.bodies[rec.turnId := rec];
    }
  }

  /** Dying before the completion leaves the call as recordable as it was. The record it then settles on is
      the very same if the body had been written, and otherwise differs only in its time. */
  lemma CrashBefore(cfg: Config, good: Calls, sys: Sys, t: Turn, ans: Answer, now: string, n: nat, again: string)
    requires Recordable(cfg, good, sys, t, ans, now)
    requires n <= |Before(cfg, sys, t, RecordFor(cfg, sys, t, ans, now), ans)|
    ensures var rec := RecordFor(cfg, sys, t, ans, now);
      var crashed := ApplyAll(sys, Before(cfg, sys, t, rec, ans)[..n]);
      && Recordable(cfg, good, crashed, t, ans, again)
      && RecordFor(cfg, crashed, t, ans, again)
         == if rec.turnId in crashed.bodies then rec else rec.(completedAt := again)
  {
    hide Inv, Before, RecordTurn, AllowsAll, PlanUnits, GoodCall;
    var rec := RecordFor(cfg, sys, t, ans, now);
    var before := Before(cfg, sys, t, rec, ans);
    BeforeInforms(cfg, sys, t, rec, ans);
    InformsOnly(sys, before[..n]);
    OnlyBody(sys, before[..n], rec);
    RecordShape(cfg, good, sys, t, ans, now);
    var ws := RecordTurn(cfg, sys, rec.turnId, ans, now).writes;
    assert ws[..n] == before[..n];
    RecordTurnAllowed(cfg, good, sys, rec.turnId, ans, now);
    InvAfterCrash(cfg, good, sys, ws, n);
    var crashed := ApplyAll(sys, before[..n]);
    assert RecordOf(cfg, crashed.State(), t, ans, again)
        == RecordOf(cfg, sys.State(), t, ans, again);
  }

  lemma {:induction false} SpendsGrow(sys: Sys, ws: seq<Write>, id: string, call: string)
    ensures SpendsOf(ApplyAll(sys, ws).journal, id, call) >= SpendsOf(sys.journal, id, call)
    decreases |ws|
  {
    if ws != [] {
      if ws[0].J? {
        AppendJournal(sys, ws[0].event);
      }
      SpendsGrow(ApplyWrite(sys, ws[0]), ws[1..], id, call);
    }
  }

  lemma BookedAfterSpend(sys: Sys, id: string, ans: Answer)
    requires ans.usage.Some? && ans.call.Some?
    ensures SpendsOf(ApplyAll(sys, BookSpend(sys, id, ans, true)).journal, id, ans.call.value) >= 1
  {
    if SpendsOf(sys.journal, id, ans.call.value) == 0 {
      var e := SpendRecorded(id, ans.usage.value.usd, ans.usage.value.signature, ans.call);
      ApplyOne(sys, J(e));
      AppendJournal(sys, e);
    }
  }

  /** A call that got as far as its completion has charged its provider call. */
  lemma ChargedBefore(cfg: Config, sys: Sys, t: Turn, rec: TurnRecord, ans: Answer)
    requires ans.usage.Some? && ans.call.Some?
    ensures SpendsOf(ApplyAll(sys, Before(cfg, sys, t, rec, ans)).journal, rec.turnId, ans.call.value) >= 1
  {
    hide Prelude, ProposalsOf, Fold, ApplyAll;
    var prelude := Prelude(sys, t, rec.turnId, ans);
    var sys1 := ApplyAll(sys, prelude);
    var body := if rec.turnId in sys1.bodies then [] else [B(rec)];
    var gates := DeriveWrites(sys1.log, ProposalsOf(cfg, rec));
    var spend := BookSpend(sys1, rec.turnId, ans, true);
    DeriveTail(sys1.log, ProposalsOf(cfg, rec));
    var sys2 := ApplyAll(sys1, body + gates);
    NoEvents(sys1, body + gates);
    assert BookSpend(sys2, rec.turnId, ans, true) == spend;
    BookedAfterSpend(sys2, rec.turnId, ans);
    ApplyConcat(sys, prelude, body + gates);
    ApplyConcat(sys, prelude + (body + gates), spend);
    assert Before(cfg, sys, t, rec, ans) == prelude + (body + gates) + spend;
  }

  lemma {:induction false} NoEvents(sys: Sys, ws: seq<Write>)
    requires forall w :: w in ws ==> !w.J?
    ensures ApplyAll(sys, ws).journal == sys.journal
    decreases |ws|
  {
    if ws != [] {
      assert ws[0] in ws;
      NoEvents(ApplyWrite(sys, ws[0]), ws[1..]);
    }
  }

  /** The turn is completed with this output, its body is its record, and it is charged exactly once. */
  ghost predicate Landed(sys: Sys, id: string, ans: Answer) {
    && ans.call.Some? && ans.output.Some?
    && id in sys.State().completed && sys.State().completed[id].output == ans.output.value
    && id in sys.bodies && sys.bodies[id] == sys.State().completed[id]
    && Completions(sys.journal, id) == 1 && SpendsOf(sys.journal, id, ans.call.value) == 1
  }

  lemma LandedBy(cfg: Config, good: Calls, sys: Sys, id: string, ans: Answer)
    requires Ok(cfg, good, sys) && ans.call.Some? && ans.output.Some? && (id, ans.call.value) in good
    requires id in sys.State().completed && sys.State().completed[id].output == ans.output.value
    requires SpendsOf(sys.journal, id, ans.call.value) >= 1
    ensures Landed(sys, id, ans)
  {
    CompletedIffCompletion(sys.journal, id);
    var c := (id, ans.call.value);
    assert c in good;
  }

  /** The state a completion leaves, followed by writes that only touch the status. */
  lemma CompletionLands(sys: Sys, rec: TurnRecord, before: seq<Write>, rest: seq<Write>, ans: Answer)
    requires ans.call.Some? && forall w :: w in rest ==> Tail(w)
    requires SpendsOf(ApplyAll(sys, before).journal, rec.turnId, ans.call.value) >= 1
    ensures var next := ApplyAll(sys, before + [J(TurnCompleted(rec))] + rest);
      && rec.turnId in next.State().completed && next.State().completed[rec.turnId] == rec
      && SpendsOf(next.journal, rec.turnId, ans.call.value) >= 1
  {
    var done := [J(TurnCompleted(rec))];
    var sys1 := ApplyAll(sys, before);
    ApplyConcat(sys, before, done);
    ApplyConcat(sys, before + done, rest);
    ApplyOne(sys1, done[0]);
    var sys2 := ApplyWrite(sys1, done[0]);
    StateAfter(sys1, done[0]);
    TailKeepsTurns(sys2, rest);
    SpendsGrow(sys1, done, rec.turnId, ans.call.value);
    SpendsGrow(sys2, rest, rec.turnId, ans.call.value);
  }

  lemma CutAfter(ws: seq<Write>, head: seq<Write>, m: nat)
    requires head <= ws && |head| <= m <= |ws|
    ensures ws[..m] == head + ws[|head|..m] && forall w :: w in ws[|head|..m] ==> w in ws[|head|..]
  {
    var part, tail := ws[|head|..m], ws[|head|..];
    assert forall i :: 0 <= i < |part| ==> part[i] == tail[i];
  }

  /** The state just after the completion, and any state the rest of the call leaves. */
  lemma LandsFrom(cfg: Config, good: Calls, sys: Sys, t: Turn, ans: Answer, now: string, m: nat)
    requires Recordable(cfg, good, sys, t, ans, now)
    requires var ws := RecordTurn(cfg, sys, cfg.Id(t.index, t.spec.slot), ans, now).writes;
      |Before(cfg, sys, t, RecordFor(cfg, sys, t, ans, now), ans)| < m <= |ws|
    ensures var ws := RecordTurn(cfg, sys, cfg.Id(t.index, t.spec.slot), ans, now).writes;
      var next := ApplyAll(sys, ws[..m]);
      Ok(cfg, good, next) && next.journal != [] && Landed(next, cfg.Id(t.index, t.spec.slot), ans)
  {
    hide Inv, Before, RecordTurn, AllowsAll, PlanUnits, GoodCall, Landed;
    var rec := RecordFor(cfg, sys, t, ans, now);
    var before := Before(cfg, sys, t, rec, ans);
    var ws := RecordTurn(cfg, sys, rec.turnId, ans, now).writes;
    RecordShape(cfg, good, sys, t, ans, now);
    RecordTurnAllowed(cfg, good, sys, rec.turnId, ans, now);
    InvAfterCrash(cfg, good, sys, ws, m);
    var rest := ws[|before| + 1..m];
    CutAfter(ws, before + [J(TurnCompleted(rec))], m);
    ChargedBefore(cfg, sys, t, rec, ans);
    CompletionLands(sys, rec, before, rest, ans);
    JournalGrows(sys, ws[..m]);
    LandedBy(cfg, good, ApplyAll(sys, ws[..m]), rec.turnId, ans);
  }

  lemma RecordAgainLands(cfg: Config, good: Calls, sys: Sys, id: string, ans: Answer, again: string)
    requires Ok(cfg, good, sys) && sys.journal != [] && Landed(sys, id, ans)
    requires GoodCall(cfg, good, id, ans) && (id, ans.call.value) in good
    ensures var ran := RecordTurn(cfg, sys, id, ans, again);
      ran.error.None? && Landed(ApplyAll(sys, ran.writes), id, ans)
  {
    var ran := RecordTurn(cfg, sys, id, ans, again);
    RecordTurnAllowed(cfg, good, sys, id, ans, again);
    InvAfter(cfg, good, sys, ran.writes);
    var spend := BookSpend(sys, id, ans, true);
    FinalizeTail(cfg, ApplyAll(sys, spend));
    TailKeepsTurns(sys, ran.writes);
    SpendsGrow(sys, ran.writes, id, ans.call.value);
    LandedBy(cfg, good, ApplyAll(sys, ran.writes), id, ans);
  }

  /** Exactly once under crash and replay: wherever the first call died, replaying its result completes
      the turn with that result, once, and charges its provider call once. What it may raise is only that
      the next turns of a gated run cannot be planned. */
  lemma ReplayAfterCrash(cfg: Config, good: Calls, sys: Sys, t: Turn, ans: Answer, now: string, n: nat, again: string)
    requires Recordable(cfg, good, sys, t, ans, now)
    requires n <= |RecordTurn(cfg, sys, cfg.Id(t.index, t.spec.slot), ans, now).writes|
    ensures var id := cfg.Id(t.index, t.spec.slot);
      var crashed := ApplyAll(sys, RecordTurn(cfg, sys, id, ans, now).writes[..n]);
      var ran := RecordTurn(cfg, crashed, id, ans, again);
      (ran.error.None? || ran.error == Some(PlanRaised)) && Landed(ApplyAll(crashed, ran.writes), id, ans)
  {
    hide Inv, Before, RecordTurn, AllowsAll, PlanUnits, GoodCall, Landed;
    var id := cfg.Id(t.index, t.spec.slot);
    var before := Before(cfg, sys, t, RecordFor(cfg, sys, t, ans, now), ans);
    var ws := RecordTurn(cfg, sys, id, ans, now).writes;
    if n <= |before| {
      RecordShape(cfg, good, sys, t, ans, now);
      assert ws[..n] == before[..n];
      CrashBefore(cfg, good, sys, t, ans, now, n, again);
      var crashed := ApplyAll(sys, ws[..n]);
      RecordShape(cfg, good, crashed, t, ans, again);
      var ran := RecordTurn(cfg, crashed, id, ans, again);
      LandsFrom(cfg, good, crashed, t, ans, again, |ran.writes|);
      assert ran.writes[..|ran.writes|] == ran.writes;
    } else {
      LandsFrom(cfg, good, sys, t, ans, now, n);
      RecordAgainLands(cfg, good, ApplyAll(sys, ws[..n]), id, ans, again);
    }
  }
}
