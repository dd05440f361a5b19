/** What blocks export: the gate ledger folded from the journal, the decisions and the attestation
    (src/mootloop/gate_ledger.py, src/mootloop/output_review.py). */
module GateLedger {
  import opened Wrappers
  import opened Stages
  import opened Journal
  import opened Decisions

  function Severity(s: GateStatus): nat {
    match s
    case Pass => 0
    case PendingGate => 1
    case Fail => 2
  }

  function Worse(a: GateStatus, b: GateStatus): GateStatus {
    if Severity(a) >= Severity(b) then a else b
  }

  // --- what the event history says ------------------------------------------------------------------------

  /** The verdicts of one gate recorded on a request's completed turns, in order. */
  function Verdicts(events: seq<Event>, completed: map<string, TurnRecord>, rid: string, gate: string): seq<GateStatus>
  {
    if events == [] then []
    else
      var e := events[|events| - 1];
      Verdicts(events[..|events| - 1], completed, rid, gate)
      + if Counts(e, completed) && completed[e.turnId].requestId == Some(rid) && e.gate == gate then [e.verdict] else []
  }

  predicate Counts(e: Event, completed: map<string, TurnRecord>) {
    e.GateEvaluated? && e.gate != "citation" && e.turnId in completed && completed[e.turnId].requestId.Some?
  }

  /** The last verdict of one gate on one completed turn. */
  function LastOn(events: seq<Event>, completed: map<string, TurnRecord>, turn: string, gate: string)
    : Option<GateStatus>
  {
    if events == [] then None
    else
      var e := events[|events| - 1];
      if Counts(e, completed) && e.turnId == turn && e.gate == gate then Some(e.verdict)
      else LastOn(events[..|events| - 1], completed, turn, gate)
  }

  function Citation(events: seq<Event>): GateStatus {
    if events == [] then PendingGate
    else
      var e := events[|events| - 1];
      if e.GateEvaluated? && e.gate == "citation" then e.verdict else Citation(events[..|events| - 1])
  }

  /** `w` is the worst of the verdicts. */
  predicate IsWorst(w: GateStatus, verdicts: seq<GateStatus>) {
    w in verdicts && forall v :: v in verdicts ==> Severity(v) <= Severity(w)
  }

  // --- the fold of the turn gates ---------------------------------------------------------------------------

  /** Statuses by (turn or request, gate). */
  type Table = map<(string, string), GateStatus>

  datatype GateFold = GateFold(gates: Table, superseded: Table, citation: GateStatus)

  ghost predicate WorstTable(events: seq<Event>, completed: map<string, TurnRecord>, worst: Table) {
    forall rid: string, gate: string ::
      var verdicts := Verdicts(events, completed, rid, gate);
      && ((rid, gate) in worst <==> verdicts != [])
      && ((rid, gate) in worst ==> IsWorst(worst[(rid, gate)], verdicts))
  }

  ghost predicate TurnTable(events: seq<Event>, completed: map<string, TurnRecord>, perTurn: Table) {
    forall turn: string, gate: string ::
      LastOn(events, completed, turn, gate)
      == if (turn, gate) in perTurn then Some(perTurn[(turn, gate)]) else None
  }

  lemma TablesStep(events: seq<Event>, completed: map<string, TurnRecord>, worst: Table, perTurn: Table, e: Event)
    requires WorstTable(events, completed, worst) && TurnTable(events, completed, perTurn) && Counts(e, completed)
    ensures var k := (completed[e.turnId].requestId.value, e.gate);
      WorstTable(events + [e], completed, worst[k := if k in worst then Worse(worst[k], e.verdict) else e.verdict])
    ensures TurnTable(events + [e], completed, perTurn[(e.turnId, e.gate) := e.verdict])
  {
    assert (events + [e])[..|events|] == events;
    var k := (completed[e.turnId].requestId.value, e.gate);
    var next := worst[k := if k in worst then Worse(worst[k], e.verdict) else e.verdict];
    forall rid: string, gate: string
      ensures var verdicts := Verdicts(events + [e], completed, rid, gate);
        && ((rid, gate) in next <==> verdicts != [])
        && ((rid, gate) in next ==> IsWorst(next[(rid, gate)], verdicts))
    {
      var before, after := Verdicts(events, completed, rid, gate), Verdicts(events + [e], completed, rid, gate);
      assert after == before + if (rid, gate) == k then [e.verdict] else [];
      assert forall v :: v in after <==> v in before || ((rid, gate) == k && v == e.verdict);
    }
  }

  lemma TablesSkip(events: seq<Event>, completed: map<string, TurnRecord>, worst: Table, perTurn: Table, e: Event)
    requires WorstTable(events, completed, worst) && TurnTable(events, completed, perTurn) && !Counts(e, completed)
    ensures WorstTable(events + [e], completed, worst) && TurnTable(events + [e], completed, perTurn)
  {
    assert (events + [e])[..|events|] == events;
    forall rid: string, gate: string
      ensures Verdicts(events + [e], completed, rid, gate) == Verdicts(events, completed, rid, gate)
    {
    }
  }

  lemma CitationStep(events: seq<Event>, e: Event)
    ensures Citation(events + [e]) ==
      if e.GateEvaluated? && e.gate == "citation" then e.verdict else Citation(events)
  {
    assert (events + [e])[..|events|] == events;
  }

  /** The turn that answers for a request, when it recorded the gate. */
  function OnOperative(perTurn: Table, operative: map<string, string>, rid: string, gate: string): Option<GateStatus> {
    var turn := if rid in operative then operative[rid] else "";
    if (turn, gate) in perTurn then Some(perTurn[(turn, gate)]) else None
  }

  /** One event of the fold. */
  method RecordVerdict(ghost seen: seq<Event>, completed: map<string, TurnRecord>, worst: Table, perTurn: Table,
                       e: Event)
      returns (nextWorst: Table, nextPerTurn: Table)
    requires WorstTable(seen, completed, worst) && TurnTable(seen, completed, perTurn)
    ensures WorstTable(seen + [e], completed, nextWorst) && TurnTable(seen + [e], completed, nextPerTurn)
  {
    if Counts(e, completed) {
      TablesStep(seen, completed, worst, perTurn, e);
      var k := (completed[e.turnId].requestId.value, e.gate);
      nextPerTurn := perTurn[(e.turnId, e.gate) := e.verdict];
      nextWorst := worst[k := if k in worst then Worse(worst[k], e.verdict) else e.verdict];
    } else {
      TablesSkip(seen, completed, worst, perTurn, e);
      nextWorst, nextPerTurn := worst, perTurn;
    }
  }

  method ScanEvents(events: seq<Event>, completed: map<string, TurnRecord>)
      returns (worst: Table, perTurn: Table, citation: GateStatus)
    ensures WorstTable(events, completed, worst) && TurnTable(events, completed, perTurn)
    ensures citation == Citation(events)
  {
    worst, perTurn, citation := map[], map[], PendingGate;
    for i := 0 to |events|
      invariant WorstTable(events[..i], completed, worst) && TurnTable(events[..i], completed, perTurn)
      invariant citation == Citation(events[..i])
    {
      var e := events[i];
      assert events[..i + 1] == events[..i] + [e];
      CitationStep(events[..i], e);
      if e.GateEvaluated? && e.gate == "citation" {
        citation := e.verdict;
      }
      worst, perTurn := RecordVerdict(events[..i], completed, worst, perTurn, e);
    }
    assert events[..|events|] == events;
  }

  /** The ledger's fold: the last verdict on the operative draft when it has one, the historical worst
      otherwise; and the worst beside it wherever the two differ. */
  method TurnGateStatus(events: seq<Event>, completed: map<string, TurnRecord>, operative: map<string, string>)
      returns (r: GateFold)
    ensures r.citation == Citation(events)
    ensures forall rid: string, gate: string :: RowMeaning(r, events, completed, operative, rid, gate)
  {
    var worst, perTurn, citation := ScanEvents(events, completed);
    r := GateFold(GatesOf(worst, perTurn, operative), SupersededOf(worst, perTurn, operative), citation);
    forall rid: string, gate: string
      ensures RowMeaning(r, events, completed, operative, rid, gate)
    {
      RowIs(r, events, completed, operative, worst, perTurn, rid, gate);
    }
  }

  function GatesOf(worst: Table, perTurn: Table, operative: map<string, string>): Table {
    map k | k in worst ::
      var on := OnOperative(perTurn, operative, k.0, k.1); if on.Some? then on.value else worst[k]
  }

  function SupersededOf(worst: Table, perTurn: Table, operative: map<string, string>): Table {
    map k | k in worst && GatesOf(worst, perTurn, operative)[k] != worst[k] :: worst[k]
  }

  /** What one row of the published view means. */
  ghost predicate RowMeaning(r: GateFold, events: seq<Event>, completed: map<string, TurnRecord>,
                             operative: map<string, string>, rid: string, gate: string)
  {
    var k := (rid, gate);
    && (k in r.gates <==> Verdicts(events, completed, rid, gate) != [])
    && (k in r.superseded ==> k in r.gates && r.superseded[k] != r.gates[k])
    && (k in r.gates ==>
          && Answers(r.gates[k], events, completed, operative, rid, gate)
          && IsWorst(WorstOf(r, k), Verdicts(events, completed, rid, gate)))
  }

  lemma GatesAt(worst: Table, perTurn: Table, operative: map<string, string>, rid: string, gate: string)
    ensures var k := (rid, gate);
      var gates, superseded := GatesOf(worst, perTurn, operative), SupersededOf(worst, perTurn, operative);
      var on := OnOperative(perTurn, operative, rid, gate);
      && (k in gates <==> k in worst)
      && (k in worst ==> gates[k] == if on.Some? then on.value else worst[k])
      && (k in superseded <==> k in worst && gates[k] != worst[k])
      && (k in superseded ==> superseded[k] == worst[k])
  {
  }

  lemma WorstAt(events: seq<Event>, completed: map<string, TurnRecord>, worst: Table, rid: string, gate: string)
    requires WorstTable(events, completed, worst)
    ensures (rid, gate) in worst <==> Verdicts(events, completed, rid, gate) != []
    ensures (rid, gate) in worst ==> IsWorst(worst[(rid, gate)], Verdicts(events, completed, rid, gate))
  {
  }

  lemma LastAt(events: seq<Event>, completed: map<string, TurnRecord>, perTurn: Table,
               operative: map<string, string>, rid: string, gate: string)
    requires TurnTable(events, completed, perTurn)
    ensures LastOn(events, completed, if rid in operative then operative[rid] else "", gate)
         == OnOperative(perTurn, operative, rid, gate)
  {
  }

  lemma RowFrom(r: GateFold, events: seq<Event>, completed: map<string, TurnRecord>,
                operative: map<string, string>, worst: Table, perTurn: Table, rid: string, gate: string)
    requires r.gates == GatesOf(worst, perTurn, operative) && r.superseded == SupersededOf(worst, perTurn, operative)
    requires (rid, gate) in worst <==> Verdicts(events, completed, rid, gate) != []
    requires (rid, gate) in worst ==> IsWorst(worst[(rid, gate)], Verdicts(events, completed, rid, gate))
    requires LastOn(events, completed, if rid in operative then operative[rid] else "", gate)
          == OnOperative(perTurn, operative, rid, gate)
    ensures RowMeaning(r, events, completed, operative, rid, gate)
  {
    GatesAt(worst, perTurn, operative, rid, gate);
  }

  lemma RowIs(r: GateFold, events: seq<Event>, completed: map<string, TurnRecord>, operative: map<string, string>,
              worst: Table, perTurn: Table, rid: string, gate: string)
    requires WorstTable(events, completed, worst) && TurnTable(events, completed, perTurn)
    requires r.gates == GatesOf(worst, perTurn, operative) && r.superseded == SupersededOf(worst, perTurn, operative)
    ensures RowMeaning(r, events, completed, operative, rid, gate)
  {
    WorstAt(events, completed, worst, rid, gate);
    LastAt(events, completed, perTurn, operative, rid, gate);
    RowFrom(r, events, completed, operative, worst, perTurn, rid, gate);
  }

  /** The historical worst, read back from the published view. */
  function WorstOf(r: GateFold, k: (string, string)): GateStatus
    requires k in r.gates
  {
    if k in r.superseded then r.superseded[k] else r.gates[k]
  }

  /** The status that gates a request: its operative draft's own last verdict, or else the worst. */
  ghost predicate Answers(status: GateStatus, events: seq<Event>, completed: map<string, TurnRecord>,
                          operative: map<string, string>, rid: string, gate: string)
  {
    var answer := LastOn(events, completed, if rid in operative then operative[rid] else "", gate);
    if answer.Some? then status == answer.value else IsWorst(status, Verdicts(events, completed, rid, gate))
  }

  // --- attorney choices against operative drafts ---------------------------------------------------------------

  /** Each request's operative draft, if it has one. */
  type Drafts = seq<(string, Option<TurnOutput>)>

  function DraftFor(drafts: Drafts, rid: string): Option<TurnOutput> {
    if drafts == [] then None
    else if drafts[|drafts| - 1].0 == rid then drafts[|drafts| - 1].1
    else DraftFor(drafts[..|drafts| - 1], rid)
  }

  function OfCode(drafts: Drafts, code: string, codeOf: string -> string): seq<Option<TurnOutput>> {
    if drafts == [] then []
    else
      OfCode(drafts[..|drafts| - 1], code, codeOf)
      + if codeOf(drafts[|drafts| - 1].0) == code then [drafts[|drafts| - 1].1] else []
  }

  function PostureOf(code: string): string {
    "Objection posture for " + code + " requests"
  }

  function Applicable(d: Decision, drafts: Drafts, codeOf: string -> string): seq<Option<TurnOutput>> {
    var p := d.proposal;
    if p.requestId.Some? then [DraftFor(drafts, p.requestId.value)]
    else if p.kind == ObjectionPosture && p.summary == PostureOf("ROG") then OfCode(drafts, "ROG", codeOf)
    else if p.kind == ObjectionPosture && p.summary == PostureOf("RFP") then OfCode(drafts, "RFP", codeOf)
    else if p.kind == ObjectionPosture && p.summary == PostureOf("RFA") then OfCode(drafts, "RFA", codeOf)
    else seq(|drafts|, i requires 0 <= i < |drafts| => drafts[i].1)
  }

  predicate NoObjections(draft: Option<TurnOutput>) {
    draft.Some? && draft.value.DraftOutput? && draft.value.objections == []
  }

  predicate Disposes(draft: Option<TurnOutput>, chosen: string) {
    draft.Some? && draft.value.DraftOutput? && draft.value.rfa == Some(chosen)
  }

  /** Whether the drafts establish what the attorney chose. */
  predicate Compatible(d: Decision, drafts: Drafts, codeOf: string -> string) {
    var applicable := Applicable(d, drafts, codeOf);
    && d.resolution.Some? && d.resolution.value.action != Deny
    && applicable != [] && (forall i :: 0 <= i < |applicable| ==> applicable[i].Some?)
    && var chosen := d.resolution.value.chosen;
       match d.proposal.kind
       case ObjectionPosture =>
         || chosen == Some("assert")
         || (chosen == Some("waive") && forall i :: 0 <= i < |applicable| ==> NoObjections(applicable[i]))
       case UnsupportedAssertion => chosen == Some("attest_anyway")
       case RfaDisposition =>
         chosen.Some? && forall i :: 0 <= i < |applicable| ==> Disposes(applicable[i], chosen.value)
       case PrivilegeCall => false
  }

  predicate NeedsRevision(d: Decision, drafts: Drafts, codeOf: string -> string) {
    d.status != Open && !Compatible(d, drafts, codeOf)
  }

  /** The closed decisions whose outcome the drafts do not establish. */
  method RevisionRequirements(decisions: seq<Decision>, drafts: Drafts, codeOf: string -> string)
      returns (required: seq<nat>)
    ensures forall id: nat :: id in required <==>
      exists d :: d in decisions && d.id == id && NeedsRevision(d, drafts, codeOf)
  {
    required := [];
    for i := 0 to |decisions|
      invariant forall id: nat :: id in required <==>
        exists d :: d in decisions[..i] && d.id == id && NeedsRevision(d, drafts, codeOf)
    {
      ghost var before := required;
      var d := decisions[i];
      assert decisions[..i + 1] == decisions[..i] + [d];
      assert forall x :: x in decisions[..i + 1] <==> x in decisions[..i] || x == d;
      if d.status != Open && !Compatible(d, drafts, codeOf) {
        required := required + [d.id];
        assert forall id: nat :: id in required <==> id in before || id == d.id;
      }
    }
    assert decisions[..|decisions|] == decisions;
  }

  // --- the export predicate ----------------------------------------------------------------------------------------

  datatype Blocker = Decisions | Attestation | Citations | Gate(name: string) | Revision(id: nat)

  predicate Blocks(s: GateStatus) {
    s != Pass
  }

  const BLOCKING_TURN_GATES := ["fabrication", "rubric"]

  /** The status of a gate in a request's row: never recorded means pending. */
  function Row(gates: Table, rid: string, gate: string): GateStatus {
    if (rid, gate) in gates then gates[(rid, gate)] else PendingGate
  }

  predicate GateBlocked(gates: Table, units: seq<string>, gate: string) {
    exists i :: 0 <= i < |units| && Blocks(Row(gates, units[i], gate))
  }

  method ExportReady(gates: Table, units: seq<string>, configured: seq<string>, decisions: GateStatus,
                     attestation: GateStatus, citation: GateStatus)
      returns (blockers: seq<Blocker>)
    ensures Blocker.Decisions in blockers <==> Blocks(decisions)
    ensures Attestation in blockers <==> Blocks(attestation)
    ensures Citations in blockers <==> Blocks(citation)
    ensures forall gate: string :: Gate(gate) in blockers <==>
      gate in BLOCKING_TURN_GATES && gate in configured && GateBlocked(gates, units, gate)
    ensures forall id: nat :: Revision(id) !in blockers
    ensures forall i, j :: 0 <= i < j < |blockers| ==> blockers[i] != blockers[j]
  {
    blockers := [];
    if Blocks(decisions) {
      blockers := blockers + [Blocker.Decisions];
    }
    if Blocks(attestation) {
      blockers := blockers + [Attestation];
    }
    if Blocks(citation) {
      blockers := blockers + [Citations];
    }
    ghost var base := blockers;
    NoRows(base, gates, configured);
    hide GateBlocked, Row;
    for i := 0 to |units|
      invariant Rows(base, blockers, gates, units[..i], configured)
    {
      ghost var seen := units[..i];
      assert units[..i + 1] == seen + [units[i]];
      blockers := CheckRow(base, blockers, gates, seen, units[i], configured);
    }
    assert units[..|units|] == units;
  }

  ghost predicate Unique(blockers: seq<Blocker>) {
    forall i, j :: 0 <= i < j < |blockers| ==> blockers[i] != blockers[j]
  }

  /** After some rows: the first blockers, and the gates those rows block. */
  ghost predicate Rows(base: seq<Blocker>, blockers: seq<Blocker>, gates: Table, seen: seq<string>,
                       configured: seq<string>)
  {
    && Unique(blockers)
    && (forall b: Blocker :: !b.Gate? ==> (b in blockers <==> b in base))
    && (forall gate: string :: Gate(gate) in blockers <==>
          gate in BLOCKING_TURN_GATES && gate in configured && GateBlocked(gates, seen, gate))
  }

  /** Part-way through a row. */
  ghost predicate RowPart(base: seq<Blocker>, blockers: seq<Blocker>, gates: Table, seen: seq<string>, rid: string,
                          configured: seq<string>, k: nat)
    requires k <= |BLOCKING_TURN_GATES|
  {
    && Unique(blockers)
    && (forall b: Blocker :: !b.Gate? ==> (b in blockers <==> b in base))
    && (forall gate: string :: Gate(gate) in blockers <==>
          && gate in BLOCKING_TURN_GATES && gate in configured
          && (GateBlocked(gates, seen, gate)
              || (gate in BLOCKING_TURN_GATES[..k] && Blocks(Row(gates, rid, gate)))))
  }

  /** The blocking gates of one request's row. */
  method CheckRow(ghost base: seq<Blocker>, before: seq<Blocker>, gates: Table, ghost seen: seq<string>, rid: string,
                  configured: seq<string>)
      returns (blockers: seq<Blocker>)
    requires Rows(base, before, gates, seen, configured)
    ensures Rows(base, blockers, gates, seen + [rid], configured)
  {
    hide GateBlocked, Row;
    blockers := before;
    for k := 0 to |BLOCKING_TURN_GATES|
      invariant RowPart(base, blockers, gates, seen, rid, configured, k)
    {
      var gate := BLOCKING_TURN_GATES[k];
      if gate in configured && Blocks(Row(gates, rid, gate)) && Gate(gate) !in blockers {
        blockers := blockers + [Gate(gate)];
      }
    }
    RowDone(base, blockers, gates, seen, rid, configured);
  }

  lemma NoRows(base: seq<Blocker>, gates: Table, configured: seq<string>)
    requires Unique(base) && forall b :: b in base ==> !b.Gate?
    ensures Rows(base, base, gates, [], configured)
  {
  }

  lemma RowDone(base: seq<Blocker>, blockers: seq<Blocker>, gates: Table, seen: seq<string>, rid: string,
                configured: seq<string>)
    requires RowPart(base, blockers, gates, seen, rid, configured, |BLOCKING_TURN_GATES|)
    ensures Rows(base, blockers, gates, seen + [rid], configured)
  {
    assert BLOCKING_TURN_GATES[..|BLOCKING_TURN_GATES|] == BLOCKING_TURN_GATES;
    forall gate: string
      ensures GateBlocked(gates, seen + [rid], gate)
        <==> GateBlocked(gates, seen, gate) || Blocks(Row(gates, rid, gate))
    {
      var more := seen + [rid];
      if GateBlocked(gates, seen, gate) {
        var i :| 0 <= i < |seen| && Blocks(Row(gates, seen[i], gate));
        assert more[i] == seen[i];
      }
      assert more[|seen|] == rid;
    }
  }

  /** What the ledger says about export. */
  datatype Ledger = Ledger(ready: bool, blockers: seq<Blocker>)

  /** Everything export waits for. */
  ghost predicate Clear(gates: Table, units: seq<string>, configured: seq<string>, decisions: seq<Decision>,
                        drafts: Drafts, codeOf: string -> string, attestation: GateStatus, citation: GateStatus)
  {
    && (forall d :: d in decisions ==> d.status != Open && Compatible(d, drafts, codeOf))
    && attestation == Pass && citation == Pass
    && (forall gate :: gate in BLOCKING_TURN_GATES && gate in configured ==> !GateBlocked(gates, units, gate))
  }

  /** The ledger is export-ready exactly when its final blocker list, decision revisions included, is
      empty; and that is exactly when every decision is closed compatibly, the attestation and the
      citations pass, and every configured blocking gate passes on every request. */
  method BuildLedger(gates: Table, units: seq<string>, configured: seq<string>, decisions: seq<Decision>,
                     drafts: Drafts, codeOf: string -> string, attestation: GateStatus, citation: GateStatus)
      returns (ledger: Ledger)
    ensures ledger.ready <==> ledger.blockers == []
    ensures ledger.ready <==> Clear(gates, units, configured, decisions, drafts, codeOf, attestation, citation)
  {
    var revisions := RevisionRequirements(decisions, drafts, codeOf);
    var open := false;
    for i := 0 to |decisions|
      invariant open <==> exists d :: d in decisions[..i] && (d.status == Open || d.id in revisions)
    {
      assert decisions[..i + 1] == decisions[..i] + [decisions[i]];
      assert forall x :: x in decisions[..i + 1] <==> x in decisions[..i] || x == decisions[i];
      if decisions[i].status == Open || decisions[i].id in revisions {
        open := true;
      }
    }
    assert decisions[..|decisions|] == decisions;
    OpenMeans(decisions, revisions, drafts, codeOf);
    var status := if open then Fail else Pass;
    var blockers := ExportReady(gates, units, configured, status, attestation, citation);
    var revise := seq(|revisions|, i requires 0 <= i < |revisions| => Revision(revisions[i]));
    NoBlockers(gates, units, configured, blockers, status, attestation, citation);
    if revisions != [] {
      assert revisions[0] in revisions;
    }
    ledger := Ledger(blockers == [], blockers + revise);
  }

  lemma OpenMeans(decisions: seq<Decision>, revisions: seq<nat>, drafts: Drafts, codeOf: string -> string)
    requires forall id: nat :: id in revisions <==>
      exists d :: d in decisions && d.id == id && NeedsRevision(d, drafts, codeOf)
    ensures (exists d :: d in decisions && (d.status == Open || d.id in revisions))
      <==> !(forall d :: d in decisions ==> d.status != Open && Compatible(d, drafts, codeOf))
  {
    forall d | d in decisions && NeedsRevision(d, drafts, codeOf)
      ensures d.id in revisions
    {
    }
  }

  lemma NoBlockers(gates: Table, units: seq<string>, configured: seq<string>, blockers: seq<Blocker>,
                   decisions: GateStatus, attestation: GateStatus, citation: GateStatus)
    requires Blocker.Decisions in blockers <==> Blocks(decisions)
    requires Attestation in blockers <==> Blocks(attestation)
    requires Citations in blockers <==> Blocks(citation)
    requires forall gate: string :: Gate(gate) in blockers <==>
      gate in BLOCKING_TURN_GATES && gate in configured && GateBlocked(gates, units, gate)
    requires forall id: nat :: Revision(id) !in blockers
    ensures blockers == [] <==>
      && decisions == Pass && attestation == Pass && citation == Pass
      && forall gate :: gate in BLOCKING_TURN_GATES && gate in configured ==> !GateBlocked(gates, units, gate)
  {
    if blockers != [] {
      var b := blockers[0];
      assert b in blockers;
      if b.Gate? {
        assert Gate(b.name) in blockers;
      }
    }
  }

  // --- the whole ledger, from the journal --------------------------------------------------------------------

  /** The gate was recorded for the request, and passed: on its operative draft the last time, or, if that
      draft never recorded it, every time. */
  ghost predicate Passed(events: seq<Event>, operative: map<string, string>, rid: string, gate: string) {
    var completed := Fold(events).completed;
    var answer := LastOn(events, completed, if rid in operative then operative[rid] else "", gate);
    var verdicts := Verdicts(events, completed, rid, gate);
    verdicts != [] && if answer.Some? then answer.value == Pass else forall v :: v in verdicts ==> v == Pass
  }

  /** Everything export waits for, in terms of what the journal says. */
  ghost predicate JournalClear(events: seq<Event>, operative: map<string, string>, units: seq<string>,
                               configured: seq<string>, decisions: seq<Decision>, drafts: Drafts,
                               codeOf: string -> string, attestation: GateStatus)
  {
    && (forall d :: d in decisions ==> d.status != Open && Compatible(d, drafts, codeOf))
    && attestation == Pass && Citation(events) == Pass
    && (forall gate, rid :: gate in BLOCKING_TURN_GATES && gate in configured && rid in units ==>
          Passed(events, operative, rid, gate))
  }

  lemma RowPasses(r: GateFold, events: seq<Event>, operative: map<string, string>, rid: string, gate: string)
    requires RowMeaning(r, events, Fold(events).completed, operative, rid, gate)
    ensures Blocks(Row(r.gates, rid, gate)) <==> !Passed(events, operative, rid, gate)
  {
    var verdicts := Verdicts(events, Fold(events).completed, rid, gate);
    assert forall v: GateStatus :: Severity(v) <= 0 <==> v == Pass;
    assert verdicts != [] ==> verdicts[0] in verdicts;
  }

  lemma RowsPass(r: GateFold, events: seq<Event>, operative: map<string, string>, units: seq<string>, gate: string)
    requires forall rid: string :: RowMeaning(r, events, Fold(events).completed, operative, rid, gate)
    ensures !GateBlocked(r.gates, units, gate) <==> forall rid :: rid in units ==> Passed(events, operative, rid, gate)
  {
    hide Passed, RowMeaning, Row, Blocks;
    forall i | 0 <= i < |units|
      ensures Blocks(Row(r.gates, units[i], gate)) <==> !Passed(events, operative, units[i], gate)
    {
      RowPasses(r, events, operative, units[i], gate);
    }
  }

  /** The ledger built from a journal is export-ready exactly when every decision is closed compatibly, the
      attestation passes, the last recorded citation verdict passes, and every configured blocking gate was
      recorded and passed on every request. */
  method LedgerOf(events: seq<Event>, operative: map<string, string>, units: seq<string>, configured: seq<string>,
                  decisions: seq<Decision>, drafts: Drafts, codeOf: string -> string, attestation: GateStatus)
      returns (ledger: Ledger)
    ensures ledger.ready <==> ledger.blockers == []
    ensures ledger.ready <==>
      JournalClear(events, operative, units, configured, decisions, drafts, codeOf, attestation)
  {
    var state := Journal.Replay(events);
    var r := TurnGateStatus(events, state.completed, operative);
    forall gate: string
      ensures !GateBlocked(r.gates, units, gate)
        <==> forall rid :: rid in units ==> Passed(events, operative, rid, gate)
    {
      RowsPass(r, events, operative, units, gate);
    }
    hide GateBlocked, Passed, RowMeaning, Fold, Compatible;
    ledger := BuildLedger(r.gates, units, configured, decisions, drafts, codeOf, attestation, r.citation);
  }

  /** Export never clears over a resolved privilege call, a denied decision, or a narrowed posture. */
  lemma ChoicesThatAlwaysBlock(gates: Table, units: seq<string>, configured: seq<string>, decisions: seq<Decision>,
                               drafts: Drafts, codeOf: string -> string, attestation: GateStatus,
                               citation: GateStatus, d: Decision)
    requires d in decisions && d.resolution.Some?
    requires || d.proposal.kind == PrivilegeCall
      || d.resolution.value.action == Deny
      || (d.proposal.kind == ObjectionPosture && d.resolution.value.chosen == Some("narrow"))
    ensures !Clear(gates, units, configured, decisions, drafts, codeOf, attestation, citation)
  {
  }
}
