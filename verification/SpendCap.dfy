/** The hard spend cap: reserve, call, settle (src/mootloop/citations/check_runner.py:226-313,
    src/mootloop/budget.py:139-169, src/mootloop/orchestrator.py:1008-1023). */
module SpendCap {
  import opened Wrappers
  import opened Journal
  import opened Engine
  import opened EngineSafety

  // --- prices ---------------------------------------------------------------------------------------------

  datatype TokenUsage = TokenUsage(input: nat, cacheRead: nat, cacheWrite: nat, output: nat)

  /** Input tokens weighted by the bucket they are billed in. */
  function WeightedInput(u: TokenUsage): real {
    u.input as real + u.cacheWrite as real * 1.25 + u.cacheRead as real * 0.1
  }

  function CostOf(u: TokenUsage, rateIn: real, rateOut: real): real {
    (WeightedInput(u) * rateIn + u.output as real * rateOut) / 1000000.0
  }

  const MAX_INPUT := 200000.0
  const MAX_OUTPUT := 64000.0

  function MaxPlausibleCost(rateIn: real, rateOut: real): real {
    (MAX_INPUT * rateIn + MAX_OUTPUT * rateOut) / 1000000.0
  }

  /** One call costs no more than its reservation at every price, exactly when its weighted input and its
      output are within the limits the reservation assumes. */
  lemma WithinReservation(u: TokenUsage)
    ensures (forall rateIn: real, rateOut: real :: rateIn >= 0.0 && rateOut >= 0.0 ==>
              CostOf(u, rateIn, rateOut) <= MaxPlausibleCost(rateIn, rateOut))
      <==> WeightedInput(u) <= MAX_INPUT && u.output as real <= MAX_OUTPUT
  {
    if WeightedInput(u) <= MAX_INPUT && u.output as real <= MAX_OUTPUT {
      forall rateIn: real, rateOut: real | rateIn >= 0.0 && rateOut >= 0.0
        ensures CostOf(u, rateIn, rateOut) <= MaxPlausibleCost(rateIn, rateOut)
      {
        ScaleUp(WeightedInput(u), MAX_INPUT, rateIn);
        ScaleUp(u.output as real, MAX_OUTPUT, rateOut);
        PerMillion(WeightedInput(u) * rateIn + u.output as real * rateOut, MAX_INPUT * rateIn + MAX_OUTPUT * rateOut);
      }
    } else if WeightedInput(u) > MAX_INPUT {
      assert CostOf(u, 1.0, 0.0) > MaxPlausibleCost(1.0, 0.0);
    } else {
      assert CostOf(u, 0.0, 1.0) > MaxPlausibleCost(0.0, 1.0);
    }
  }

  lemma ScaleUp(a: real, b: real, rate: real)
    requires a <= b && rate >= 0.0
    ensures a * rate <= b * rate
  {
  }

  lemma PerMillion(a: real, b: real)
    requires a <= b
    ensures a / 1000000.0 <= b / 1000000.0
  {
  }

  /** Token counts within both limits are not enough: cache writes are billed above plain input, so a call
      that fills both limits that way overruns at every price that charges for input. */
  lemma CacheWritesOverrun(rateIn: real, rateOut: real)
    requires rateIn > 0.0
    ensures CostOf(TokenUsage(0, 0, 200000, 64000), rateIn, rateOut) > MaxPlausibleCost(rateIn, rateOut)
  {
    var u := TokenUsage(0, 0, 200000, 64000);
    assert WeightedInput(u) == 250000.0;
    assert CostOf(u, rateIn, rateOut) == (250000.0 * rateIn + 64000.0 * rateOut) / 1000000.0;
  }

  /** One window of the price table: dollars per million tokens in and out. */
  datatype Window = Window(model: string, rateIn: real, rateOut: real)

  const PRICES := [
    Window("claude-opus-4-8", 5.0, 25.0),
    Window("claude-sonnet-5", 2.0, 10.0),
    Window("claude-sonnet-5", 3.0, 15.0),
    Window("claude-haiku-4-5", 1.0, 5.0),
    Window("claude-fable-5", 10.0, 50.0)
  ]

  /** Every window charges five times as much out as in. */
  lemma WindowsAreProportional(w: Window)
    requires w in PRICES
    ensures w.rateIn > 0.0 && w.rateOut == 5.0 * w.rateIn
  {
  }

  lemma ProportionalCost(u: TokenUsage, rate: real)
    ensures CostOf(u, rate, 5.0 * rate) == (WeightedInput(u) + 5.0 * u.output as real) * rate / 1000000.0
    ensures MaxPlausibleCost(rate, 5.0 * rate) == 520000.0 * rate / 1000000.0
  {
  }

  /** At the prices of the table, in whichever window, a call costs no more than its reservation exactly when
      its weighted input and five times its output are within their sum of limits. */
  lemma WithinReservationAtTable(u: TokenUsage, w: Window)
    requires w in PRICES
    ensures CostOf(u, w.rateIn, w.rateOut) <= MaxPlausibleCost(w.rateIn, w.rateOut)
      <==> WeightedInput(u) + 5.0 * u.output as real <= 520000.0
  {
    WindowsAreProportional(w);
    ProportionalCost(u, w.rateIn);
    var weight := WeightedInput(u) + 5.0 * u.output as real;
    if weight <= 520000.0 {
      ScaleUp(weight, 520000.0, w.rateIn);
    } else {
      assert (weight - 520000.0) * w.rateIn > 0.0;
    }
  }

  // --- the cap --------------------------------------------------------------------------------------------

  function Exposure(s: RunState): real {
    s.spend + Total(s.pending)
  }

  function Reserved(m: Amounts, key: string): Option<real> {
    if m == [] then None else if m[0].0 == key then Some(m[0].1) else Reserved(m[1..], key)
  }

  predicate NonNegative(m: Amounts) {
    forall i :: 0 <= i < |m| ==> m[i].1 >= 0.0
  }

  lemma {:induction false} TotalNonNegative(m: Amounts)
    requires NonNegative(m)
    ensures Total(m) >= 0.0
  {
    if m != [] {
      TotalNonNegative(m[1..]);
    }
  }

  lemma {:induction false} PutTotal(m: Amounts, key: string, usd: real)
    requires NonNegative(m) && usd >= 0.0
    ensures NonNegative(Put(m, key, usd)) && Total(Put(m, key, usd)) <= Total(m) + usd
    ensures Reserved(Put(m, key, usd), key) == Some(usd)
  {
    if m != [] {
      assert ([(key, usd)] + m[1..])[1..] == m[1..];
      if m[0].0 != key {
        PutTotal(m[1..], key, usd);
        assert ([m[0]] + Put(m[1..], key, usd))[1..] == Put(m[1..], key, usd);
      }
    }
  }

  lemma {:induction false} DropTotal(m: Amounts, key: string)
    requires NonNegative(m)
    ensures NonNegative(Drop(m, key))
    ensures Total(Drop(m, key)) == Total(m) - if Reserved(m, key).Some? then Reserved(m, key).value else 0.0
  {
    if m != [] && m[0].0 != key {
      DropTotal(m[1..], key);
      assert ([m[0]] + Drop(m[1..], key))[1..] == Drop(m[1..], key);
    }
  }

  /** What may be journaled under a fixed cap: a reservation only when the run is not over the cap, and a
      settlement only within its own reservation. */
  predicate Disciplined(s: RunState, e: Event, cap: real, largest: real) {
    match e
    case TurnIntent(_, usd) => 0.0 <= usd <= largest && Exposure(s) < cap
    case SpendRecorded(t, usd, _, _) => Reserved(s.pending, t).Some? && 0.0 <= usd <= Reserved(s.pending, t).value
    case CapRaised(_) => false
    case _ => true
  }

  /** Settling changes exposure by what the call cost over what was reserved for it, so exposure does not
      rise exactly when the call cost no more. */
  lemma SettlesExactly(s: RunState, id: string, usd: real, signature: string, call: Option<string>)
    requires NonNegative(s.pending)
    ensures var next := Apply(s, SpendRecorded(id, usd, signature, call));
      var held := if Reserved(s.pending, id).Some? then Reserved(s.pending, id).value else 0.0;
      && Exposure(next) == Exposure(s) + usd - held
      && (Exposure(next) <= Exposure(s) <==> usd <= held)
  {
    DropTotal(s.pending, id);
  }

  ghost predicate DisciplinedAll(sys: Sys, ws: seq<Write>, cap: real, largest: real)
    decreases |ws|
  {
    ws == [] ||
    ((ws[0].J? ==> Disciplined(sys.State(), ws[0].event, cap, largest))
     && DisciplinedAll(ApplyWrite(sys, ws[0]), ws[1..], cap, largest))
  }

  /** No negative amount is booked or reserved. */
  predicate Sane(s: RunState) {
    NonNegative(s.pending) && s.spend >= 0.0
  }

  predicate Amounted(e: Event) {
    match e
    case SpendRecorded(_, usd, _, _) => usd >= 0.0
    case TurnIntent(_, usd) => usd >= 0.0
    case _ => true
  }

  /** However a run was driven: a journal without negative amounts folds to a sane state. */
  lemma {:induction false} JournalsAreSane(journal: seq<Event>)
    requires forall e :: e in journal ==> Amounted(e)
    ensures Sane(Fold(journal))
  {
    if journal != [] {
      var front, e := journal[..|journal| - 1], journal[|journal| - 1];
      JournalsAreSane(front);
      assert Amounted(e);
      if e.TurnIntent? {
        PutTotal(Fold(front).pending, e.turnId, e.maxPlausibleUsd);
      } else if e.SpendRecorded? {
        DropTotal(Fold(front).pending, e.turnId);
      }
    }
  }

  /** Below the cap plus one largest reservation, or no higher than it was. */
  predicate Bounded(was: RunState, now: RunState, cap: real, largest: real) {
    Exposure(now) < cap + largest || Exposure(now) <= Exposure(was)
  }

  lemma StepBound(s: RunState, e: Event, cap: real, largest: real)
    requires Sane(s) && Disciplined(s, e, cap, largest)
    ensures Sane(Apply(s, e)) && Bounded(s, Apply(s, e), cap, largest)
    ensures Apply(s, e).capRaisedTo == s.capRaisedTo
  {
    TotalNonNegative(s.pending);
    if e.TurnIntent? {
      PutTotal(s.pending, e.turnId, e.maxPlausibleUsd);
    } else if e.SpendRecorded? {
      DropTotal(s.pending, e.turnId);
      TotalNonNegative(Drop(s.pending, e.turnId));
    }
  }

  /** From any sane state, after any number of disciplined writes, settled spend plus outstanding
      reservations is below the cap plus one largest reservation, or has not grown. */
  lemma {:induction false} OvershootBound(sys: Sys, ws: seq<Write>, n: nat, cap: real, largest: real)
    requires Sane(sys.State()) && DisciplinedAll(sys, ws, cap, largest) && n <= |ws|
    ensures var s := ApplyAll(sys, ws[..n]).State();
      Sane(s) && Bounded(sys.State(), s, cap, largest) && s.capRaisedTo == sys.State().capRaisedTo
    decreases n
  {
    if n == 0 {
      assert ws[..0] == [];
    } else {
      StateAfter(sys, ws[0]);
      if ws[0].J? {
        StepBound(sys.State(), ws[0].event, cap, largest);
      }
      assert ws[..n][1..] == ws[1..][..n - 1];
      OvershootBound(ApplyWrite(sys, ws[0]), ws[1..], n - 1, cap, largest);
    }
  }

  lemma {:induction false} DisciplinedConcat(sys: Sys, a: seq<Write>, b: seq<Write>, cap: real, largest: real)
    requires DisciplinedAll(sys, a, cap, largest) && DisciplinedAll(ApplyAll(sys, a), b, cap, largest)
    ensures DisciplinedAll(sys, a + b, cap, largest)
    decreases |a|
  {
    if a == [] {
      assert a + b == b;
    } else {
      assert (a + b)[1..] == a[1..] + b;
      DisciplinedConcat(ApplyWrite(sys, a[0]), a[1..], b, cap, largest);
    }
  }

  lemma DisciplinedOne(sys: Sys, w: Write, cap: real, largest: real)
    requires w.J? ==> Disciplined(sys.State(), w.event, cap, largest)
    ensures DisciplinedAll(sys, [w], cap, largest)
  {
    assert DisciplinedAll(ApplyWrite(sys, w), [], cap, largest);
  }

  // --- the proposition checker ------------------------------------------------------------------------------

  /** What a check has reserved when its provider is called. */
  function Held(s: RunState, id: string, maxUsd: real): real {
    if Reserved(s.pending, id).Some? then Reserved(s.pending, id).value else maxUsd
  }

  /** The call costs no more than what is reserved for it when it is made. */
  predicate SettlesWithin(cfg: Config, s: RunState, c: CheckCall, largest: real) {
    && 0.0 <= c.maxUsd <= largest
    && (c.ans.usage.Some? ==> 0.0 <= c.ans.usage.value.usd <= Held(s, CheckId(cfg, c.proposition), c.maxUsd))
  }

  predicate AllSettleWithin(cfg: Config, sys: Sys, calls: seq<CheckCall>, largest: real)
    decreases |calls|
  {
    calls == [] ||
    (SettlesWithin(cfg, sys.State(), calls[0], largest)
     && AllSettleWithin(cfg, ApplyAll(sys, CheckOne(cfg, sys, calls[0]).writes), calls[1..], largest))
  }

  lemma {:induction false} HasKeyIsReserved(m: Amounts, key: string)
    ensures HasKey(m, key) <==> Reserved(m, key).Some?
  {
    if m != [] {
      HasKeyIsReserved(m[1..], key);
      assert HasKey(m[1..], key) ==> HasKey(m, key) by {
        if HasKey(m[1..], key) {
          var i :| 0 <= i < |m[1..]| && m[1..][i].0 == key;
          assert m[i + 1].0 == key;
        }
      }
      if HasKey(m, key) && m[0].0 != key {
        var i :| 0 <= i < |m| && m[i].0 == key;
        assert m[1..][i - 1].0 == key;
      }
    }
  }

  lemma ReserveDisciplined(cfg: Config, sys: Sys, c: CheckCall, cap: real, largest: real)
    requires Sane(sys.State()) && Exposure(sys.State()) < cap && 0.0 <= c.maxUsd <= largest
    ensures var id := CheckId(cfg, c.proposition);
      var ws := ReserveWrites(sys, id, c.maxUsd);
      && DisciplinedAll(sys, ws, cap, largest)
      && Reserved(ApplyAll(sys, ws).State().pending, id) == Some(Held(sys.State(), id, c.maxUsd))
  {
    var id := CheckId(cfg, c.proposition);
    HasKeyIsReserved(sys.State().pending, id);
    if !HasKey(sys.State().pending, id) {
      var w := J(TurnIntent(id, c.maxUsd));
      DisciplinedOne(sys, w, cap, largest);
      ApplyOne(sys, w);
      StateAfter(sys, w);
      PutTotal(sys.State().pending, id, c.maxUsd);
    }
  }

  lemma CompletionDisciplined(sys: Sys, rec: TurnRecord, ans: Answer, cap: real, largest: real)
    requires Reserved(sys.State().pending, rec.turnId).Some?
    requires ans.usage.Some? ==> 0.0 <= ans.usage.value.usd <= Reserved(sys.State().pending, rec.turnId).value
    ensures DisciplinedAll(sys, CheckCompletion(sys, rec, ans), cap, largest)
  {
    var body := if rec.turnId in sys.bodies then [] else [B(rec)];
    var spend := BookSpend(sys, rec.turnId, ans, true);
    if body != [] {
      DisciplinedOne(sys, body[0], cap, largest);
      ApplyOne(sys, body[0]);
    }
    var sys1 := ApplyAll(sys, body);
    assert sys1.State() == sys.State();
    if spend != [] {
      DisciplinedOne(sys1, spend[0], cap, largest);
    }
    DisciplinedConcat(sys, body, spend, cap, largest);
    DisciplinedOne(ApplyAll(sys, body + spend), J(TurnCompleted(rec)), cap, largest);
    DisciplinedConcat(sys, body + spend, [J(TurnCompleted(rec))], cap, largest);
  }

  lemma CheckDisciplined(cfg: Config, sys: Sys, c: CheckCall, cap: real, largest: real)
    requires Sane(sys.State()) && EffectiveCap(cfg, sys.State()) == Some(cap)
    requires SettlesWithin(cfg, sys.State(), c, largest)
    ensures DisciplinedAll(sys, CheckOne(cfg, sys, c).writes, cap, largest)
  {
    assert DisciplinedAll(sys, [], cap, largest);
    hide ReserveWrites, CheckCompletion, DisciplinedAll, ApplyAll, Fold, Sane;
    var id := CheckId(cfg, c.proposition);
    var ws := CheckOne(cfg, sys, c).writes;
    if ws != [] {
      var reserve := ReserveWrites(sys, id, c.maxUsd);
      ReserveDisciplined(cfg, sys, c, cap, largest);
      var sys1 := ApplyAll(sys, reserve);
      if ws != reserve {
        var rec := SettleBody(sys1.bodies, CheckRecord(cfg, c)).value;
        CompletionDisciplined(sys1, rec, c.ans, cap, largest);
        DisciplinedConcat(sys, reserve, CheckCompletion(sys1, rec, c.ans), cap, largest);
      }
    }
  }

  lemma {:induction false} EachDisciplined(cfg: Config, sys: Sys, calls: seq<CheckCall>, cap: real, largest: real)
    requires Sane(sys.State()) && EffectiveCap(cfg, sys.State()) == Some(cap)
    requires AllSettleWithin(cfg, sys, calls, largest)
    ensures DisciplinedAll(sys, CheckEach(cfg, sys, calls).writes, cap, largest)
    decreases |calls|
  {
    if calls != [] {
      var first := CheckOne(cfg, sys, calls[0]);
      CheckDisciplined(cfg, sys, calls[0], cap, largest);
      OvershootBound(sys, first.writes, |first.writes|, cap, largest);
      assert first.writes[..|first.writes|] == first.writes;
      if first.error.None? {
        var next := ApplyAll(sys, first.writes);
        EachDisciplined(cfg, next, calls[1..], cap, largest);
        DisciplinedConcat(sys, first.writes, CheckEach(cfg, next, calls[1..]).writes, cap, largest);
      }
    }
  }

  /** Citation checks on any run, however it was driven and capped before, dying after any of their writes:
      exposure ends below the cap plus one largest reservation, or no higher than it was. */
  lemma ChecksStayBounded(cfg: Config, sys: Sys, calls: seq<CheckCall>, n: nat, cap: real, largest: real)
    requires forall e :: e in sys.journal ==> Amounted(e)
    requires EffectiveCap(cfg, sys.State()) == Some(cap) && AllSettleWithin(cfg, sys, calls, largest)
    requires n <= |CheckEach(cfg, sys, calls).writes|
    ensures Bounded(sys.State(), ApplyAll(sys, CheckEach(cfg, sys, calls).writes[..n]).State(), cap, largest)
  {
    JournalsAreSane(sys.journal);
    EachDisciplined(cfg, sys, calls, cap, largest);
    OvershootBound(sys, CheckEach(cfg, sys, calls).writes, n, cap, largest);
  }
}
