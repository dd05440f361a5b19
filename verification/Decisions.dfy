/** Attorney-gate decisions: the append-only store, the gates a draft implies, and their derivation
    (src/mootloop/decisions.py). */
module Decisions {
  import opened Wrappers
  import opened Stages
  import opened Journal
  import Panels

  datatype Kind = ObjectionPosture | PrivilegeCall | RfaDisposition | UnsupportedAssertion

  datatype Proposal = Proposal(
    kind: Kind, requestId: Option<string>, summary: string, options: seq<string>, recommended: string)
  {
    /** Two decisions with the same kind and summary are the same gate. */
    function Key(): (Kind, string) { (kind, summary) }
  }

  datatype DecisionStatus = Open | Approved | Modified | Denied

  datatype Resolution = Resolution(
    action: DecisionAction, chosen: Option<string>, note: string, decidedBy: string, source: DecisionSource,
    decidedAt: string)

  datatype Decision = Decision(id: nat, proposal: Proposal, status: DecisionStatus, resolution: Option<Resolution>)

  type Log = seq<Decision>

  function StatusFor(a: DecisionAction): DecisionStatus {
    match a
    case Approve => Approved
    case Modify => Modified
    case Deny => Denied
  }

  // --- gates a draft implies ---------------------------------------------------------------------

  function PostureProposal(code: string, asserts: bool): Proposal {
    Proposal(ObjectionPosture, None, "Objection posture for " + code + " requests",
             ["assert", "narrow", "waive"], if asserts then "assert" else "waive")
  }

  function AssertionProposals(requestId: string, items: seq<string>): seq<Proposal> {
    seq(|items|, i requires 0 <= i < |items| =>
      Proposal(UnsupportedAssertion, Some(requestId), "Unsupported assertion in " + requestId + ": " + items[i],
               ["obtain_support", "strike", "attest_anyway"], "obtain_support"))
  }

  function PrivilegeProposals(requestId: string, objections: seq<Panels.Objection>): seq<Proposal> {
    if objections == [] then []
    else
      (if objections[0].basis.text == "privilege" then
         [Proposal(PrivilegeCall, Some(requestId), "Privilege call in " + requestId + ": " + objections[0].text,
                   ["withhold", "log_only", "produce"], "withhold")]
       else [])
      + PrivilegeProposals(requestId, objections[1..])
  }

  /** Every gate a single draft turn implies. `code` is the request family in upper case. */
  function ProposalsFor(draft: TurnOutput, requestId: string, code: string, document: bool): seq<Proposal> {
    if !draft.DraftOutput? then []
    else
      (if document then [] else [PostureProposal(code, draft.objections != [])])
      + AssertionProposals(requestId, draft.gateItems)
      + PrivilegeProposals(requestId, draft.objections)
      + (if code == "RFA" && draft.rfa.Some? then
           [Proposal(RfaDisposition, Some(requestId), "RFA disposition for " + requestId,
                     ["admit", "deny", "qualify", "lack_of_knowledge"], draft.rfa.value)]
         else [])
  }

  // --- the folded store -----------------------------------------------------------------------------

  /** The current view of one decision: its latest record. */
  function Latest(log: Log, id: nat): Option<Decision> {
    if log == [] then None
    else if log[|log| - 1].id == id then Some(log[|log| - 1])
    else Latest(log[..|log| - 1], id)
  }

  /** How many decisions the store holds. Every decision starts open, exactly once: see `LogOk`. */
  function Count(log: Log): nat {
    if log == [] then 0 else Count(log[..|log| - 1]) + if log[|log| - 1].status == Open then 1 else 0
  }

  function Keys(log: Log): set<(Kind, string)> {
    set d | d in log :: d.proposal.Key()
  }

  function ProposalKeys(ps: seq<Proposal>): set<(Kind, string)> {
    set p | p in ps :: p.Key()
  }

  /** What may follow in the store: a new gate under the next number, or the one resolution of an open
      decision. */
  predicate OkAppend(log: Log, d: Decision) {
    if d.status == Open then d.id == Count(log) && d.proposal.Key() !in Keys(log) && d.resolution.None?
    else
      && Latest(log, d.id).Some? && Latest(log, d.id).value.status == Open
      && d.proposal == Latest(log, d.id).value.proposal
      && d.resolution.Some? && d.status == StatusFor(d.resolution.value.action)
  }

  predicate LogOk(log: Log) {
    log == [] || (LogOk(log[..|log| - 1]) && OkAppend(log[..|log| - 1], log[|log| - 1]))
  }

  lemma LogOkAppend(log: Log, d: Decision)
    requires LogOk(log) && OkAppend(log, d)
    ensures LogOk(log + [d])
    ensures Count(log + [d]) == Count(log) + if d.status == Open then 1 else 0
    ensures Keys(log + [d]) == Keys(log) + {d.proposal.Key()}
    ensures forall id :: Latest(log + [d], id) == if id == d.id then Some(d) else Latest(log, id)
  {
    assert (log + [d])[..|log|] == log;
    assert forall x :: x in log + [d] <==> x in log || x == d;
  }

  lemma {:induction false} LatestMember(log: Log, id: nat)
    ensures Latest(log, id).Some? ==> Latest(log, id).value in log && Latest(log, id).value.id == id
    ensures (exists d :: d in log && d.id == id) ==> Latest(log, id).Some?
  {
    if log != [] {
      LatestMember(log[..|log| - 1], id);
    }
  }

  function RecordsOf(log: Log, id: nat, resolved: bool): nat {
    if log == [] then 0
    else
      var d := log[|log| - 1];
      RecordsOf(log[..|log| - 1], id, resolved) + if d.id == id && (d.status != Open) == resolved then 1 else 0
  }

  /** The store's decisions are numbered 0 to n-1; each is opened once and resolved at most once, and
      once resolved never opens again. */
  lemma {:induction false} LogShape(log: Log, id: nat)
    requires LogOk(log)
    ensures Latest(log, id).Some? <==> id < Count(log)
    ensures RecordsOf(log, id, false) == if id < Count(log) then 1 else 0
    ensures RecordsOf(log, id, true) <= 1
    ensures RecordsOf(log, id, true) == 1 <==> Latest(log, id).Some? && Latest(log, id).value.status != Open
  {
    if log != [] {
      var front, d := log[..|log| - 1], log[|log| - 1];
      LogShape(front, id);
      if d.id != id {
        LogShape(front, d.id);
      }
    }
  }

  // --- derivation ------------------------------------------------------------------------------------

  /** The store after a derivation: every gate not seen before is appended under the next number. */
  function Derive(log: Log, ps: seq<Proposal>): Log
    decreases |ps|
  {
    if ps == [] then log
    else Derive(if ps[0].Key() in Keys(log) then log else log + [Decision(Count(log), ps[0], Open, None)], ps[1..])
  }

  lemma ProposalKeysStep(ps: seq<Proposal>)
    requires ps != []
    ensures ProposalKeys(ps) == {ps[0].Key()} + ProposalKeys(ps[1..])
  {
    assert forall p :: p in ps <==> p == ps[0] || p in ps[1..];
  }

  /** After a derivation the store holds exactly the gates it had and the gates proposed. */
  lemma {:induction false} DeriveKeys(log: Log, ps: seq<Proposal>)
    requires LogOk(log)
    ensures LogOk(Derive(log, ps)) && log <= Derive(log, ps)
    ensures Keys(Derive(log, ps)) == Keys(log) + ProposalKeys(ps)
    decreases |ps|
  {
    hide OkAppend, Latest, Count;
    if ps != [] {
      ProposalKeysStep(ps);
      if ps[0].Key() in Keys(log) {
        DeriveKeys(log, ps[1..]);
      } else {
        var d := Decision(Count(log), ps[0], Open, None);
        LogOkAppend(log, d);
        DeriveKeys(log + [d], ps[1..]);
      }
    }
  }

  /** A crash leaves a prefix of the store, and every prefix is well formed. */
  lemma {:induction false} PrefixOk(log: Log, n: nat)
    requires LogOk(log) && n <= |log|
    ensures LogOk(log[..n]) && Keys(log[..n]) <= Keys(log)
    decreases |log|
  {
    if n < |log| {
      PrefixOk(log[..|log| - 1], n);
      assert log[..|log| - 1][..n] == log[..n];
    } else {
      assert log[..n] == log;
    }
  }

  /** A derivation that died after any append, then run again from any superset of its drafts, ends with
      the same gates as one that never died, still numbered 0 to n-1. */
  lemma RederiveAfterCrash(log: Log, ps: seq<Proposal>, n: nat, more: seq<Proposal>)
    requires LogOk(log) && |log| <= n <= |Derive(log, ps)| && ProposalKeys(ps) <= ProposalKeys(more)
    ensures var recovered := Derive(Derive(log, ps)[..n], more);
      && LogOk(recovered)
      && Keys(recovered) == Keys(Derive(log, more))
      && forall id: nat :: Latest(recovered, id).Some? <==> id < Count(recovered)
  {
    DeriveKeys(log, ps);
    DeriveKeys(log, more);
    var full := Derive(log, ps);
    PrefixOk(full, n);
    var crashed := full[..n];
    DeriveKeys(crashed, more);
    PrefixOk(crashed, |log|);
    assert crashed[..|log|] == log;
    forall id: nat
      ensures Latest(Derive(crashed, more), id).Some? <==> id < Count(Derive(crashed, more))
    {
      LogShape(Derive(crashed, more), id);
    }
  }

  lemma OpenAppend(log: Log, d: Decision)
    requires d.status == Open
    ensures Keys(log + [d]) == Keys(log) + {d.proposal.Key()} && Count(log + [d]) == Count(log) + 1
  {
    assert (log + [d])[..|log|] == log;
    assert forall x :: x in log + [d] <==> x in log || x == d;
  }

  lemma DeriveStep(log: Log, ps: seq<Proposal>, i: nat)
    requires i < |ps|
    ensures Derive(log, ps[i..])
         == Derive(if ps[i].Key() in Keys(log) then log else log + [Decision(Count(log), ps[i], Open, None)],
                   ps[i + 1..])
  {
    assert ps[i..][1..] == ps[i + 1..];
  }

  /** The derivation loop, with its `seen` set and `next` counter. */
  method DeriveAndStore(log: Log, ps: seq<Proposal>) returns (stored: Log)
    ensures stored == Derive(log, ps)
  {
    var seen, next := Keys(log), Count(log);
    stored := log;
    for i := 0 to |ps|
      invariant Derive(stored, ps[i..]) == Derive(log, ps)
      invariant seen == Keys(stored) && next == Count(stored)
    {
      DeriveStep(stored, ps, i);
      if ps[i].Key() !in seen {
        var d := Decision(next, ps[i], Open, None);
        OpenAppend(stored, d);
        stored, seen, next := stored + [d], seen + {ps[i].Key()}, next + 1;
      }
    }
  }

  // --- resolution ------------------------------------------------------------------------------------

  datatype ResolveError = UnknownDecision | ModifyNeedsChoice | NotAnOption | AlreadyResolved

  /** What a resolve request asks of the store. */
  datatype ResolvePlan = Fresh(record: Decision) | Retry(stored: Decision) | Refused(error: ResolveError)

  function ChosenKey(d: Decision, r: Resolution): Option<string> {
    if r.action == Approve && (r.chosen.None? || r.chosen == Some("")) then Some(d.proposal.recommended)
    else r.chosen
  }

  /** `r.chosen` is the key the caller passed. */
  function PlanResolve(log: Log, id: nat, r: Resolution): ResolvePlan {
    var current := Latest(log, id);
    if current.None? then Refused(UnknownDecision)
    else
      var d := current.value;
      if r.action == Modify && (r.chosen.None? || r.chosen == Some("")) then Refused(ModifyNeedsChoice)
      else
        var requested := r.(chosen := ChosenKey(d, r));
        if requested.chosen.Some? && requested.chosen.value !in d.proposal.options then Refused(NotAnOption)
        else if d.status != Open then
          if d.resolution.Some? && d.resolution.value.(decidedAt := r.decidedAt) == requested then Retry(d)
          else Refused(AlreadyResolved)
        else Fresh(d.(status := StatusFor(r.action), resolution := Some(requested)))
  }

  /** A fresh resolution is the one record that may close the decision; asking for the same resolution
      again, at any later time, is a retry; asking for another is refused. */
  lemma ResolveOnce(log: Log, id: nat, r: Resolution, again: Resolution)
    requires LogOk(log) && PlanResolve(log, id, r).Fresh?
    ensures var d := PlanResolve(log, id, r).record;
      && d.id == id && OkAppend(log, d)
      && (again.(decidedAt := r.decidedAt) == r ==> PlanResolve(log + [d], id, again) == Retry(d))
      && !PlanResolve(log + [d], id, again).Fresh?
  {
    var d := PlanResolve(log, id, r).record;
    LatestMember(log, id);
    LogOkAppend(log, d);
  }
}
