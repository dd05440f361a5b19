/** Journal events and the state a fold derives from them
    (src/mootloop/journal.py:252-313, src/mootloop/models/events.py). */
module Journal {
  import opened Wrappers
  import opened Stages
  import opened Pipeline

  datatype Status = Running | Finished | NeedsAttention | Capped | NeedsDecisions | Checkpoint | Paused

  datatype Mode = Autonomous | Gated | Observed

  datatype GateStatus = Pass | PendingGate | Fail

  /** A turn belongs to a stage of the graph, or is a citation check made after drafting. */
  datatype TurnStage = InGraph(stage: Stage) | CitationProposition

  datatype TurnRecord = TurnRecord(
    turnId: string,
    requestId: Option<string>,
    stage: TurnStage,
    schema: Schema,
    attempt: nat,
    output: TurnOutput,
    gates: seq<(string, GateStatus)>,
    completedAt: string)

  /** A checkpoint waits before a stage, or on open policy decisions. */
  datatype Boundary = BeforeStage(stage: Stage) | PolicyDecisions | UnknownBoundary

  datatype DecisionAction = Approve | Modify | Deny
  datatype DecisionSource = Human | Policy

  /** `signature` stands for the five usage fields a legacy replay is recognised by. */
  datatype Event =
    | RunStarted(task: string, mode: Mode)
    | RunEnqueued
    | StageStarted(stage: Stage)
    | TurnCompleted(record: TurnRecord)
    | TurnDiscarded(turnId: string, attempt: nat, detail: string)
    | GateEvaluated(turnId: string, gate: string, verdict: GateStatus)
    | SpendRecorded(turnId: string, usd: real, signature: string, call: Option<string>)
    | RunFinished(status: Status)
    | CapRaised(toUsd: real)
    | DecisionRecorded(decisionId: nat, action: DecisionAction, decidedBy: string, source: DecisionSource,
                       decidedAt: string)
    | CheckpointReached(boundary: Boundary)
    | CheckpointCleared(boundary: Boundary)
    | RunPaused(reason: string)
    | RunResumed
    | RunReopened(reason: string, grant: nat)
    | TurnIntent(turnId: string, maxPlausibleUsd: real)

  /** A dictionary of amounts in insertion order. */
  type Amounts = seq<(string, real)>

  predicate HasKey(m: Amounts, key: string) {
    exists i :: 0 <= i < |m| && m[i].0 == key
  }

  /** Assignment keeps the place of a key that is already there. */
  function Put(m: Amounts, key: string, usd: real): Amounts {
    if m == [] then [(key, usd)]
    else if m[0].0 == key then [(key, usd)] + m[1..]
    else [m[0]] + Put(m[1..], key, usd)
  }

  function Drop(m: Amounts, key: string): Amounts {
    if m == [] then []
    else if m[0].0 == key then m[1..]
    else [m[0]] + Drop(m[1..], key)
  }

  function Total(m: Amounts): real {
    if m == [] then 0.0 else m[0].1 + Total(m[1..])
  }

  datatype RunState = RunState(
    task: Option<string>,
    mode: Mode,
    status: Status,
    pauseReason: Option<string>,
    currentStage: Option<Stage>,
    completed: map<string, TurnRecord>,
    discarded: map<string, nat>,
    discardDetails: map<string, string>,
    cleared: set<Boundary>,
    spend: real,
    capRaisedTo: Option<real>,
    granted: nat,
    pending: Amounts)
  {
    predicate Halted() { status != Running }

    predicate Terminal() { status == Finished || status == NeedsAttention || status == Capped }
  }

  const Initial := RunState(None, Autonomous, Running, None, None, map[], map[], map[], {}, 0.0, None, 0, [])

  function Apply(s: RunState, e: Event): RunState {
    match e
    case RunStarted(task, mode) => s.(task := Some(task), mode := mode)
    case RunEnqueued => s
    case StageStarted(stage) => s.(currentStage := Some(stage))
    case TurnCompleted(r) => s.(completed := s.completed[r.turnId := r])
    case TurnDiscarded(t, n, detail) =>
      s.(discarded := s.discarded[t := n],
         discardDetails := if detail == "" then s.discardDetails else s.discardDetails[t := detail])
    case GateEvaluated(_, _, _) => s
    case SpendRecorded(t, usd, _, _) => s.(spend := s.spend + usd, pending := Drop(s.pending, t))
    case RunFinished(status) => s.(status := status)
    case CapRaised(usd) => s.(capRaisedTo := Some(usd), status := if s.status == Capped then Running else s.status)
    case DecisionRecorded(_, _, _, _, _) => s
    case CheckpointReached(_) => s.(status := Checkpoint)
    case CheckpointCleared(b) =>
      s.(cleared := s.cleared + {b}, status := if s.status == Checkpoint then Running else s.status)
    case RunPaused(reason) => s.(status := Paused, pauseReason := Some(reason))
    case RunResumed => if s.status == Paused then s.(status := Running, pauseReason := None) else s
    case RunReopened(_, n) =>
      s.(granted := s.granted + n, status := if s.status == NeedsAttention then Running else s.status)
    case TurnIntent(t, usd) => s.(pending := Put(s.pending, t, usd))
  }

  /** The state a journal stands for. */
  function Fold(journal: seq<Event>): RunState {
    if journal == [] then Initial else Apply(Fold(journal[..|journal| - 1]), journal[|journal| - 1])
  }

  lemma FoldAppend(journal: seq<Event>, e: Event)
    ensures Fold(journal + [e]) == Apply(Fold(journal), e)
  {
    assert (journal + [e])[..|journal|] == journal;
  }

  /** The statuses from which a verb may write an event. */
  predicate StatusAllows(s: RunState, e: Event) {
    match e
    case TurnDiscarded(_, _, _) => s.status == Running
    case RunFinished(to) =>
      && (to == Finished || to == NeedsDecisions || to == Capped || to == NeedsAttention)
      && (to == Finished ==> s.status == Running || s.status == NeedsDecisions)
      && (to == NeedsDecisions || to == Capped ==> s.status == Running)
    case CheckpointReached(_) => s.status == Running && s.mode == Gated
    case CheckpointCleared(_) => s.status == Checkpoint
    case RunPaused(_) => !s.Terminal()
    case RunResumed => s.status == Paused
    case RunReopened(_, _) => s.status == NeedsAttention
    case _ => true
  }

  /** The replay loop. */
  method Replay(journal: seq<Event>) returns (state: RunState)
    ensures state == Fold(journal)
  {
    state := Initial;
    for i := 0 to |journal|
      invariant state == Fold(journal[..i])
    {
      FoldAppend(journal[..i], journal[i]);
      assert journal[..i] + [journal[i]] == journal[..i + 1];
      state := Apply(state, journal[i]);
    }
    assert journal[..|journal|] == journal;
  }

  // --- what a journal says about one turn --------------------------------------------------------

  function Completions(journal: seq<Event>, turnId: string): nat {
    if journal == [] then 0
    else
      var e := journal[|journal| - 1];
      Completions(journal[..|journal| - 1], turnId) + if e.TurnCompleted? && e.record.turnId == turnId then 1 else 0
  }

  function SpendsOf(journal: seq<Event>, turnId: string, call: string): nat {
    if journal == [] then 0
    else
      var e := journal[|journal| - 1];
      SpendsOf(journal[..|journal| - 1], turnId, call)
      + if e.SpendRecorded? && e.turnId == turnId && e.call == Some(call) then 1 else 0
  }

  lemma {:induction false} CompletedIffCompletion(journal: seq<Event>, turnId: string)
    ensures turnId in Fold(journal).completed <==> Completions(journal, turnId) > 0
  {
    if journal != [] {
      CompletedIffCompletion(journal[..|journal| - 1], turnId);
    }
  }

  /** A folded record is one the journal carries. */
  lemma {:induction false} CompletedFromJournal(journal: seq<Event>, turnId: string)
    requires turnId in Fold(journal).completed
    ensures TurnCompleted(Fold(journal).completed[turnId]) in journal
    ensures Fold(journal).completed[turnId].turnId == turnId
  {
    var front, e := journal[..|journal| - 1], journal[|journal| - 1];
    if !(e.TurnCompleted? && e.record.turnId == turnId) {
      CompletedFromJournal(front, turnId);
    }
  }
}
