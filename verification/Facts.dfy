/** The append-only fact log, its fold, and supersession under crashes (src/mootloop/facts.py:43-322). */
module Facts {
  import opened Wrappers

  datatype Provenance = Provenance(doc: string, quote: string)

  /** A content-derived id. It stands for an injective hash of the three parts it hashes. */
  datatype FactId = FactId(statement: string, version: nat, provenance: seq<Provenance>)

  datatype Review = Pending | Accepted | Rejected

  datatype Fact = Fact(
    id: FactId, version: nat, supersededBy: Option<FactId>, supersedes: Option<FactId>, review: Review,
    reviewedBy: string)

  type Log = seq<Fact>

  type State = map<FactId, Fact>

  // --- the fold -------------------------------------------------------------------------------------------

  /** First pass: the last record of each id. */
  function Latest(log: Log): State {
    if log == [] then map[] else Latest(log[..|log| - 1])[log[|log| - 1].id := log[|log| - 1]]
  }

  function Mark(state: State, r: Fact): State {
    if r.review == Accepted && r.supersedes.Some? && r.supersedes.value in state
       && state[r.supersedes.value].supersededBy.None?
    then state[r.supersedes.value := state[r.supersedes.value].(supersededBy := Some(r.id))]
    else state
  }

  /** Second pass: successors close the edges their predecessors do not carry yet. */
  function MarkAll(state: State, log: Log): State {
    if log == [] then state else Mark(MarkAll(state, log[..|log| - 1]), log[|log| - 1])
  }

  function Fold(log: Log): State {
    MarkAll(Latest(log), log)
  }

  /** The two loops of the fold. */
  method FoldLoop(log: Log) returns (state: State)
    ensures state == Fold(log)
  {
    state := map[];
    for i := 0 to |log|
      invariant state == Latest(log[..i])
    {
      assert log[..i + 1][..i] == log[..i];
      state := state[log[i].id := log[i]];
    }
    assert log[..|log|] == log;
    ghost var latest := state;
    for i := 0 to |log|
      invariant state == MarkAll(latest, log[..i])
    {
      assert log[..i + 1][..i] == log[..i];
      state := Mark(state, log[i]);
    }
  }

  /** The first accepted record that names `p` as its predecessor. */
  function FirstSuccessor(log: Log, p: FactId): Option<FactId> {
    if log == [] then None
    else
      var earlier := FirstSuccessor(log[..|log| - 1], p);
      var r := log[|log| - 1];
      if earlier.Some? then earlier
      else if r.review == Accepted && r.supersedes == Some(p) then Some(r.id)
      else None
  }

  ghost predicate Names(log: Log, successor: FactId, p: FactId) {
    exists r :: r in log && r.review == Accepted && r.id == successor && r.supersedes == Some(p)
  }

  lemma {:induction false} LatestFromLog(log: Log, p: FactId)
    ensures p in Latest(log) ==> Latest(log)[p] in log && Latest(log)[p].id == p
    ensures (exists r :: r in log && r.id == p) ==> p in Latest(log)
  {
    if log != [] {
      LatestFromLog(log[..|log| - 1], p);
    }
  }

  lemma {:induction false} MarkAllMeaning(state: State, log: Log, p: FactId)
    ensures MarkAll(state, log).Keys == state.Keys
    ensures p in state ==>
      MarkAll(state, log)[p] ==
        if state[p].supersededBy.Some? || FirstSuccessor(log, p).None? then state[p]
        else state[p].(supersededBy := FirstSuccessor(log, p))
  {
    if log != [] {
      MarkAllMeaning(state, log[..|log| - 1], p);
    }
  }

  lemma NamesAppend(log: Log, r: Fact, x: FactId, p: FactId)
    ensures Names(log + [r], x, p) <==>
      Names(log, x, p) || (r.review == Accepted && r.id == x && r.supersedes == Some(p))
  {
    assert forall y :: y in log + [r] <==> y in log || y == r;
    if Names(log, x, p) {
      var y :| y in log && y.review == Accepted && y.id == x && y.supersedes == Some(p);
      assert y in log + [r];
    }
    assert r in log + [r];
  }

  lemma {:induction false} FirstSuccessorMeaning(log: Log, p: FactId)
    ensures FirstSuccessor(log, p).Some? ==> Names(log, FirstSuccessor(log, p).value, p)
    ensures FirstSuccessor(log, p).None? ==> forall x :: !Names(log, x, p)
  {
    if log != [] {
      var front, r := log[..|log| - 1], log[|log| - 1];
      FirstSuccessorMeaning(front, p);
      assert front + [r] == log;
      forall x
        ensures Names(log, x, p)
          <==> Names(front, x, p) || (r.review == Accepted && r.id == x && r.supersedes == Some(p))
      {
        NamesAppend(front, r, x, p);
      }
    }
  }

  /** The folded record: the last one, with the edge its first accepted successor implies. */
  lemma FoldMeaning(log: Log, p: FactId)
    ensures Fold(log).Keys == Latest(log).Keys
    ensures p in Latest(log) ==>
      Fold(log)[p] ==
        if Latest(log)[p].supersededBy.Some? || FirstSuccessor(log, p).None? then Latest(log)[p]
        else Latest(log)[p].(supersededBy := FirstSuccessor(log, p))
  {
    MarkAllMeaning(Latest(log), log, p);
  }

  // --- a crash between the two appends of a revision -------------------------------------------------------

  predicate Current(log: Log, p: FactId) {
    p in Fold(log) && Fold(log)[p].supersededBy.None?
  }

  lemma LatestAppend(log: Log, r: Fact)
    ensures Latest(log + [r]) == Latest(log)[r.id := r]
  {
    assert (log + [r])[..|log|] == log;
  }

  lemma FirstSuccessorAppend(log: Log, r: Fact, p: FactId)
    ensures FirstSuccessor(log + [r], p) ==
      if FirstSuccessor(log, p).Some? then FirstSuccessor(log, p)
      else if r.review == Accepted && r.supersedes == Some(p) then Some(r.id) else None
  {
    assert (log + [r])[..|log|] == log;
  }

  /** The revision is complete at its first append: with or without the second one, from any log at all,
      the fold is the same map. */
  lemma RevisionCompleteAtFirstAppend(log: Log, p: FactId, successor: Fact)
    requires Current(log, p) && successor.review == Accepted && successor.supersedes == Some(p) && successor.id != p
    ensures Fold(log + [successor] + [Fold(log)[p].(supersededBy := Some(successor.id))]) == Fold(log + [successor])
  {
    var one := log + [successor];
    var reemitted := Fold(log)[p].(supersededBy := Some(successor.id));
    var two := one + [reemitted];
    FoldMeaning(log, p);
    LatestFromLog(log, p);
    LatestAppend(log, successor);
    LatestAppend(one, reemitted);
    FirstSuccessorMeaning(log, p);
    FirstSuccessorAppend(log, successor, p);
    forall q | q in Fold(two)
      ensures q in Fold(one) && Fold(two)[q] == Fold(one)[q]
    {
      FoldMeaning(one, q);
      FoldMeaning(two, q);
      FirstSuccessorAppend(one, reemitted, q);
      SecondAppendNamesNothingNew(log, p, one, q);
    }
    FoldMeaning(one, p);
    FoldMeaning(two, p);
  }

  /** The re-emitted predecessor repeats the predecessor's own edge. */
  lemma SecondAppendNamesNothingNew(log: Log, p: FactId, one: Log, q: FactId)
    requires p in Fold(log) && log <= one
    ensures Fold(log)[p].review == Accepted && Fold(log)[p].supersedes == Some(q) ==> FirstSuccessor(one, q).Some?
  {
    FoldMeaning(log, p);
    LatestFromLog(log, p);
    FirstSuccessorMeaning(one, q);
    if Fold(log)[p].review == Accepted && Fold(log)[p].supersedes == Some(q) {
      var r := Latest(log)[p];
      assert r in one;
      assert Names(one, r.id, q);
    }
  }

  // --- the store's operations --------------------------------------------------------------------------------

  datatype FactError =
    | UnknownFact | AlreadySuperseded | AlreadyExists | NotPending | NoReviewer | NotSupported | UnknownPredecessor

  datatype Op =
    | Add(statement: string, provenance: seq<Provenance>)
    | Propose(statement: string, provenance: seq<Provenance>)
    | ProposeRevision(predecessor: FactId, statement: string, provenance: seq<Provenance>)
    | ReviewFact(id: FactId, accept: bool, reviewer: string, signed: bool, supported: bool)
    | Revise(predecessor: FactId, statement: string, provenance: seq<Provenance>)

  datatype Outcome = Outcome(appends: seq<Fact>, error: Option<FactError>)

  function Fresh(statement: string, version: nat, provenance: seq<Provenance>, supersedes: Option<FactId>,
                 review: Review): Fact
  {
    Fact(FactId(statement, version, provenance), version, None, supersedes, review, "")
  }

  /** What an operation appends, in order. `signed` is whether the reviewer and the time of the review are more
      than white space, and `supported` whether the provenance is review-ready. */
  function Run(log: Log, op: Op): Outcome {
    var state := Fold(log);
    match op
    case Add(s, p) => Outcome([Fresh(s, 1, p, None, Accepted)], None)
    case Propose(s, p) =>
      var f := Fresh(s, 1, p, None, Pending);
      if f.id in state then Outcome([], Some(AlreadyExists)) else Outcome([f], None)
    case ProposeRevision(q, s, p) =>
      if q !in state then Outcome([], Some(UnknownFact))
      else if state[q].supersededBy.Some? then Outcome([], Some(AlreadySuperseded))
      else
        var f := Fresh(s, state[q].version + 1, p, Some(q), Pending);
        if f.id in state then Outcome([], Some(AlreadyExists)) else Outcome([f], None)
    case ReviewFact(id, accept, reviewer, signed, supported) =>
      if id !in state then Outcome([], Some(UnknownFact))
      else
        var f := state[id];
        if f.review != Pending then Outcome([], Some(NotPending))
        else if !signed then Outcome([], Some(NoReviewer))
        else if accept && !supported then Outcome([], Some(NotSupported))
        else if accept && f.supersedes.Some? && f.supersedes.value !in state then Outcome([], Some(UnknownPredecessor))
        else if accept && f.supersedes.Some? && state[f.supersedes.value].supersededBy.Some? then
          Outcome([], Some(AlreadySuperseded))
        else
          var reviewed := f.(review := if accept then Accepted else Rejected, reviewedBy := reviewer);
          if accept && f.supersedes.Some? then
            Outcome([reviewed, state[f.supersedes.value].(supersededBy := Some(id))], None)
          else Outcome([reviewed], None)
    case Revise(q, s, p) =>
      if q !in state then Outcome([], Some(UnknownFact))
      else if state[q].supersededBy.Some? then Outcome([], Some(AlreadySuperseded))
      else
        var f := Fresh(s, state[q].version + 1, p, Some(q), Accepted);
        Outcome([f, state[q].(supersededBy := Some(f.id))], None)
  }

  // --- what every append keeps -----------------------------------------------------------------------------------

  ghost predicate RecordOk(log: Log, r: Fact) {
    && r.version == r.id.version
    && (r.supersedes.Some? ==> r.supersedes.value in Latest(log) && r.version == r.supersedes.value.version + 1)
    && (r.supersededBy.Some? ==> Names(log, r.supersededBy.value, r.id))
  }

  /** No fact has two accepted successors. */
  ghost predicate OneSuccessor(log: Log) {
    forall p: FactId, x: FactId, y: FactId :: Names(log, x, p) && Names(log, y, p) ==> x == y
  }

  ghost predicate Inv(log: Log) {
    OneSuccessor(log) && forall r :: r in log ==> RecordOk(log, r)
  }

  /** When a record may be appended. */
  ghost predicate OkAppend(log: Log, r: Fact) {
    && RecordOk(log, r)
    && (r.review == Accepted && r.supersedes.Some? ==> forall x :: Names(log, x, r.supersedes.value) ==> x == r.id)
  }

  lemma OkStaysOk(log: Log, r: Fact, y: Fact)
    requires RecordOk(log, y)
    ensures RecordOk(log + [r], y)
  {
    LatestAppend(log, r);
    if y.supersededBy.Some? {
      NamesAppend(log, r, y.supersededBy.value, y.id);
    }
  }

  lemma KeepsInv(log: Log, r: Fact)
    requires Inv(log) && OkAppend(log, r)
    ensures Inv(log + [r])
  {
    forall y | y in log + [r]
      ensures RecordOk(log + [r], y)
    {
      OkStaysOk(log, r, y);
    }
    forall p: FactId, x: FactId, y: FactId | Names(log + [r], x, p) && Names(log + [r], y, p)
      ensures x == y
    {
      NamesAppend(log, r, x, p);
      NamesAppend(log, r, y, p);
    }
  }

  lemma FoldRecord(log: Log, p: FactId)
    requires Inv(log) && p in Fold(log)
    ensures var f := Fold(log)[p];
      && f.id == p && RecordOk(log, f)
      && (f.supersededBy.None? ==> forall x :: !Names(log, x, p))
      && (f.review == Accepted && f.supersedes.Some? ==> Names(log, p, f.supersedes.value))
  {
    FoldMeaning(log, p);
    LatestFromLog(log, p);
    FirstSuccessorMeaning(log, p);
    assert RecordOk(log, Latest(log)[p]);
  }

  /** A re-emitted predecessor, once its accepted successor is in the log. */
  lemma ReemitOk(log: Log, p: FactId, successor: Fact)
    requires Inv(log) && Inv(log + [successor]) && Current(log, p)
    requires successor.review == Accepted && successor.supersedes == Some(p)
    ensures OkAppend(log + [successor], Fold(log)[p].(supersededBy := Some(successor.id)))
  {
    var f := Fold(log)[p];
    FoldRecord(log, p);
    OkStaysOk(log, successor, f);
    NamesAppend(log, successor, successor.id, p);
    if f.review == Accepted && f.supersedes.Some? {
      NamesAppend(log, successor, p, f.supersedes.value);
    }
  }

  /** Both appends of a superseding operation are allowed, one after the other. */
  lemma TransitionAllowed(log: Log, p: FactId, successor: Fact)
    requires Inv(log) && Current(log, p) && successor.supersedes == Some(p) && successor.review == Accepted
    requires successor.version == successor.id.version == p.version + 1
    requires successor.supersededBy.Some? ==> Names(log, successor.supersededBy.value, successor.id)
    ensures OkAppend(log, successor)
    ensures OkAppend(log + [successor], Fold(log)[p].(supersededBy := Some(successor.id)))
  {
    FoldRecord(log, p);
    FoldMeaning(log, p);
    KeepsInv(log, successor);
    ReemitOk(log, p, successor);
  }

  /** Every append of every operation keeps the invariant, so a crash after either one does. */
  lemma OperationsAllowed(log: Log, op: Op)
    requires Inv(log)
    ensures var a := Run(log, op).appends;
      && |a| <= 2
      && (|a| >= 1 ==> OkAppend(log, a[0]) && Inv(log + [a[0]]))
      && (|a| == 2 ==> OkAppend(log + [a[0]], a[1]) && Inv(log + [a[0]] + [a[1]]))
  {
    var a := Run(log, op).appends;
    var state := Fold(log);
    if op.ReviewFact? && a != [] {
      FoldRecord(log, op.id);
      var f := state[op.id];
      if |a| == 2 {
        FoldRecord(log, f.supersedes.value);
        TransitionAllowed(log, f.supersedes.value, a[0]);
      }
    } else if op.Revise? && a != [] {
      FoldRecord(log, op.predecessor);
      TransitionAllowed(log, op.predecessor, a[0]);
    } else if op.ProposeRevision? && a != [] {
      FoldRecord(log, op.predecessor);
      FoldMeaning(log, op.predecessor);
    }
    if |a| >= 1 {
      KeepsInv(log, a[0]);
      if |a| == 2 {
        KeepsInv(log + [a[0]], a[1]);
      }
    }
  }

  // --- whole logs -------------------------------------------------------------------------------------------------

  /** An operation and how many of its appends became durable. */
  datatype Step = Step(op: Op, reached: nat)

  function Reach(steps: seq<Step>): Log {
    if steps == [] then []
    else
      var log := Reach(steps[..|steps| - 1]);
      var s := steps[|steps| - 1];
      var a := Run(log, s.op).appends;
      log + a[..if s.reached < |a| then s.reached else |a|]
  }

  lemma {:induction false} ReachKeepsInv(steps: seq<Step>)
    ensures Inv(Reach(steps))
  {
    if steps != [] {
      var log, s := Reach(steps[..|steps| - 1]), steps[|steps| - 1];
      ReachKeepsInv(steps[..|steps| - 1]);
      OperationsAllowed(log, s.op);
      var a := Run(log, s.op).appends;
      var n := if s.reached < |a| then s.reached else |a|;
      if n == 0 {
        assert log + a[..0] == log;
      } else if n == 1 {
        assert a[..1] == [a[0]];
      } else {
        assert log + a[..2] == log + [a[0]] + [a[1]];
      }
    }
  }

  /** In every reachable log: a fact is superseded exactly when an accepted record names it as its
      predecessor; that record's id is the only one that ever does; and it is one version later. */
  lemma SupersededExactlyWhenNamed(steps: seq<Step>, p: FactId, x: FactId)
    requires p in Fold(Reach(steps))
    ensures var log := Reach(steps);
      && (Fold(log)[p].supersededBy == Some(x) <==> Names(log, x, p))
      && (Fold(log)[p].supersededBy == Some(x) ==>
            x in Fold(log) && Fold(log)[x].version == x.version == Fold(log)[p].version + 1)
  {
    var log := Reach(steps);
    ReachKeepsInv(steps);
    FoldRecord(log, p);
    var f := Fold(log)[p];
    if f.supersededBy.Some? && (f.supersededBy.value == x || Names(log, x, p)) {
      assert Names(log, f.supersededBy.value, p);
      assert f.supersededBy.value == x;
      var r :| r in log && r.review == Accepted && r.id == x && r.supersedes == Some(p);
      assert RecordOk(log, r);
      LatestFromLog(log, x);
      FoldMeaning(log, x);
      FoldRecord(log, x);
    }
  }

  /** Every superseding operation, whichever log it runs on, leaves the same fold whether it dies between
      its two appends or not. */
  lemma CrashedTransitionReadsComplete(steps: seq<Step>, op: Op)
    requires |Run(Reach(steps), op).appends| == 2
    ensures var log, a := Reach(steps), Run(Reach(steps), op).appends; Fold(log + a) == Fold(log + a[..1])
  {
    var log := Reach(steps);
    var a := Run(log, op).appends;
    ReachKeepsInv(steps);
    var p := if op.Revise? then op.predecessor else Fold(log)[op.id].supersedes.value;
    FoldRecord(log, p);
    if op.ReviewFact? {
      FoldRecord(log, op.id);
    }
    RevisionCompleteAtFirstAppend(log, p, a[0]);
    assert log + a == log + [a[0]] + [a[1]];
    assert a[..1] == [a[0]];
  }

  /** The store: a log that its operations extend. */
  class FactStore {
    var log: Log

    constructor ()
      ensures log == []
    {
      log := [];
    }

    method ReviseFact(predecessor: FactId, statement: string, provenance: seq<Provenance>)
        returns (error: Option<FactError>)
      modifies this
      ensures error == Run(old(log), Revise(predecessor, statement, provenance)).error
      ensures log == old(log) + Run(old(log), Revise(predecessor, statement, provenance)).appends
    {
      var current := FoldLoop(log);
      if predecessor !in current {
        return Some(UnknownFact);
      }
      if current[predecessor].supersededBy.Some? {
        return Some(AlreadySuperseded);
      }
      var successor := Fresh(statement, current[predecessor].version + 1, provenance, Some(predecessor), Accepted);
      log := log + [successor];
      log := log + [current[predecessor].(supersededBy := Some(successor.id))];
      return None;
    }

    method ProposeFact(statement: string, provenance: seq<Provenance>) returns (error: Option<FactError>)
      modifies this
      ensures error == Run(old(log), Propose(statement, provenance)).error
      ensures log == old(log) + Run(old(log), Propose(statement, provenance)).appends
    {
      var fact := Fresh(statement, 1, provenance, None, Pending);
      var current := FoldLoop(log);
      if fact.id in current {
        return Some(AlreadyExists);
      }
      log := log + [fact];
      return None;
    }

    /** `strip` is whatever takes white space off both ends of a text. */
    method Accept(id: FactId, reviewer: string, reviewedAt: string, strip: string -> string, supported: bool)
        returns (error: Option<FactError>)
      modifies this
      ensures var signed := strip(reviewer) != "" && strip(reviewedAt) != "";
        && error == Run(old(log), ReviewFact(id, true, reviewer, signed, supported)).error
        && log == old(log) + Run(old(log), ReviewFact(id, true, reviewer, signed, supported)).appends
    {
      var current := FoldLoop(log);
      if id !in current {
        return Some(UnknownFact);
      }
      var fact := current[id];
      if fact.review != Pending {
        return Some(NotPending);
      }
      if strip(reviewer) == "" || strip(reviewedAt) == "" {
        return Some(NoReviewer);
      }
      if !supported {
        return Some(NotSupported);
      }
      if fact.supersedes.Some? {
        var p := fact.supersedes.value;
        if p !in current {
          return Some(UnknownPredecessor);
        }
        if current[p].supersededBy.Some? {
          return Some(AlreadySuperseded);
        }
        log := log + [fact.(review := Accepted, reviewedBy := reviewer)];
        log := log + [current[p].(supersededBy := Some(id))];
        return None;
      }
      log := log + [fact.(review := Accepted, reviewedBy := reviewer)];
      return None;
    }
  }
}
