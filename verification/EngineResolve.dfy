/** Resolving a decision under crashes and retries (src/mootloop/decisions.py:224-335). */
module EngineResolve {
  import opened Wrappers
  import opened Decisions
  import opened Engine
  import opened EngineSafety
  import opened EngineVerbs

  /** A resolved decision never changes again. */
  lemma ResolvedStays(cfg: Config, good: Calls, sys: Sys, w: Write, id: nat)
    requires LogOk(sys.log) && Allows(cfg, good, sys, w)
    requires Latest(sys.log, id).Some? && Latest(sys.log, id).value.status != Open
    ensures Latest(ApplyWrite(sys, w).log, id) == Latest(sys.log, id)
  {
    if w.D? {
      LogOkAppend(sys.log, w.decision);
      LogShape(sys.log, id);
    }
  }

  lemma {:induction false} ResolvedStaysAll(cfg: Config, good: Calls, sys: Sys, ws: seq<Write>, id: nat)
    requires Ok(cfg, good, sys) && AllowsAll(cfg, good, sys, ws)
    requires Latest(sys.log, id).Some? && Latest(sys.log, id).value.status != Open
    ensures Latest(ApplyAll(sys, ws).log, id) == Latest(sys.log, id)
    decreases |ws|
  {
    if ws != [] {
      ResolvedStays(cfg, good, sys, ws[0], id);
      KeepsInv(cfg, good, sys, ws[0]);
      ResolvedStaysAll(cfg, good, ApplyWrite(sys, ws[0]), ws[1..], id);
    }
  }

  lemma {:induction false} RecordedStays(sys: Sys, ws: seq<Write>, id: nat)
    requires LastRecorded(sys.journal, id).Some?
    ensures LastRecorded(ApplyAll(sys, ws).journal, id).Some?
    decreases |ws|
  {
    if ws != [] {
      if ws[0].J? {
        AppendJournal(sys, ws[0].event);
      }
      RecordedStays(ApplyWrite(sys, ws[0]), ws[1..], id);
    }
  }

  /** The decision is resolved, and journaled exactly once, as it is stored. */
  ghost predicate Settled(sys: Sys, id: nat) {
    Recorded(sys, id) && TimesRecorded(sys.journal, id) == 1
  }

  lemma AfterResolutionSettles(cfg: Config, good: Calls, sys: Sys, d: Decision)
    requires Ok(cfg, good, sys) && sys.journal != []
    requires Latest(sys.log, d.id) == Some(d) && d.status != Open && d.resolution.Some?
    ensures AfterResolution(cfg, sys, d).error.None?
    ensures Settled(ApplyAll(sys, AfterResolution(cfg, sys, d).writes), d.id)
  {
    AfterResolutionAllowed(cfg, good, sys, d);
    var ws := AfterResolution(cfg, sys, d).writes;
    InvAfter(cfg, good, sys, ws);
    var recorded := RecordResolution(sys.journal, d.id, d.resolution.value).writes;
    var sys1 := ApplyAll(sys, recorded);
    if recorded != [] {
      AppendJournal(sys, recorded[0].event);
      assert ApplyAll(sys, recorded) == ApplyWrite(sys, recorded[0]) by {
        assert recorded[1..] == [];
      }
    }
    assert LastRecorded(sys1.journal, d.id).Some?;
    RecordedStays(sys1, Finalize(cfg, sys1), d.id);
    ApplyConcat(sys, recorded, Finalize(cfg, sys1));
  }

  /** A fresh resolution stores its record first. */
  lemma FirstWrite(cfg: Config, good: Calls, sys: Sys, id: nat, r: Resolution)
    requires Ok(cfg, good, sys) && sys.journal != [] && PlanResolve(sys.log, id, r).Fresh?
    requires AllowsAll(cfg, good, sys, Resolve(cfg, sys, id, r).writes)
    ensures var ws := Resolve(cfg, sys, id, r).writes;
      var d := PlanResolve(sys.log, id, r).record;
      && ws != [] && ws[0] == D(d) && Allows(cfg, good, sys, ws[0])
      && AllowsAll(cfg, good, ApplyWrite(sys, ws[0]), ws[1..])
      && d.id == id && d.status != Open && d.resolution.Some? && Latest(sys.log + [d], id) == Some(d)
      && forall again: Resolution :: again.(decidedAt := r.decidedAt) == r ==>
           PlanResolve(sys.log + [d], id, again) == Retry(d)
  {
    hide AfterResolution;
    var d := PlanResolve(sys.log, id, r).record;
    ResolveOnce(sys.log, id, r, r);
    LogOkAppend(sys.log, d);
    forall again: Resolution | again.(decidedAt := r.decidedAt) == r
      ensures PlanResolve(sys.log + [d], id, again) == Retry(d)
    {
      ResolveOnce(sys.log, id, r, again);
    }
  }

  /** A resolution that became durable, then died, is a retry for the next call. */
  lemma CrashedIsRetry(cfg: Config, good: Calls, sys: Sys, id: nat, r: Resolution, n: nat, again: Resolution)
    requires Ok(cfg, good, sys) && sys.journal != [] && PlanResolve(sys.log, id, r).Fresh?
    requires again.(decidedAt := r.decidedAt) == r && 1 <= n <= |Resolve(cfg, sys, id, r).writes|
    ensures var crashed := ApplyAll(sys, Resolve(cfg, sys, id, r).writes[..n]);
      var d := PlanResolve(sys.log, id, r).record;
      && Ok(cfg, good, crashed) && crashed.journal != []
      && Latest(crashed.log, id) == Some(d) && d.status != Open && d.resolution.Some? && d.id == id
      && PlanResolve(crashed.log, id, again) == Retry(d)
  {
    hide Inv, Resolve, AllowsAll, Allows, OkAppend;
    var ws := Resolve(cfg, sys, id, r).writes;
    var d := PlanResolve(sys.log, id, r).record;
    ResolveAllowed(cfg, good, sys, id, r);
    FirstWrite(cfg, good, sys, id, r);
    InvAfterCrash(cfg, good, sys, ws, n);
    JournalGrows(sys, ws[..n]);
    KeepsInv(cfg, good, sys, ws[0]);
    assert ws[..n][1..] == ws[1..][..n - 1];
    var sys1 := ApplyWrite(sys, ws[0]);
    PrefixAllowed(cfg, good, sys1, ws[1..], n - 1);
    ResolvedStaysAll(cfg, good, sys1, ws[1..][..n - 1], id);
    RetryDependsOnLatest(sys.log + [d], ApplyAll(sys, ws[..n]).log, id, again);
  }

  lemma RetryDependsOnLatest(a: Log, b: Log, id: nat, r: Resolution)
    requires Latest(a, id) == Latest(b, id)
    ensures PlanResolve(a, id, r) == PlanResolve(b, id, r)
  {
  }

  /** Wherever a resolution died, asking for it again, at any later time, settles it: it is stored once
      and journaled once. */
  lemma ResolveAfterCrash(cfg: Config, good: Calls, sys: Sys, id: nat, r: Resolution, n: nat, again: Resolution)
    requires Ok(cfg, good, sys) && sys.journal != [] && PlanResolve(sys.log, id, r).Fresh?
    requires again.(decidedAt := r.decidedAt) == r && n <= |Resolve(cfg, sys, id, r).writes|
    ensures var crashed := ApplyAll(sys, Resolve(cfg, sys, id, r).writes[..n]);
      var ran := Resolve(cfg, crashed, id, again);
      ran.error.None? && Settled(ApplyAll(crashed, ran.writes), id)
  {
    var ws := Resolve(cfg, sys, id, r).writes;
    if n == 0 {
      assert ws[..0] == [];
      FreshSettles(cfg, good, sys, id, again);
    } else {
      CrashedIsRetry(cfg, good, sys, id, r, n, again);
      AfterResolutionSettles(cfg, good, ApplyAll(sys, ws[..n]), PlanResolve(sys.log, id, r).record);
    }
  }

  /** Once a decision is resolved, any request is the same resolution again, or is refused and changes
      nothing. */
  lemma ConflictChangesNothing(cfg: Config, sys: Sys, id: nat, other: Resolution)
    requires Latest(sys.log, id).Some? && Latest(sys.log, id).value.status != Open
    ensures PlanResolve(sys.log, id, other) == Retry(Latest(sys.log, id).value)
      <==> PlanResolve(sys.log, id, other).Retry?
    ensures !PlanResolve(sys.log, id, other).Retry? ==>
      Resolve(cfg, sys, id, other).writes == [] && Resolve(cfg, sys, id, other).error.Some?
  {
  }

  lemma FreshSettles(cfg: Config, good: Calls, sys: Sys, id: nat, r: Resolution)
    requires Ok(cfg, good, sys) && sys.journal != [] && PlanResolve(sys.log, id, r).Fresh?
    ensures Resolve(cfg, sys, id, r).error.None?
    ensures Settled(ApplyAll(sys, Resolve(cfg, sys, id, r).writes), id)
  {
    var d := PlanResolve(sys.log, id, r).record;
    ResolveOnce(sys.log, id, r, r);
    LogOkAppend(sys.log, d);
    KeepsInv(cfg, good, sys, D(d));
    var sys1 := ApplyWrite(sys, D(d));
    AfterResolutionSettles(cfg, good, sys1, d);
    assert ([D(d)] + AfterResolution(cfg, sys1, d).writes)[1..] == AfterResolution(cfg, sys1, d).writes;
  }

  lemma {:induction false} PrefixAllowed(cfg: Config, good: Calls, sys: Sys, ws: seq<Write>, n: nat)
    requires AllowsAll(cfg, good, sys, ws) && n <= |ws|
    ensures AllowsAll(cfg, good, sys, ws[..n])
    decreases n
  {
    if n > 0 {
      assert ws[..n][1..] == ws[1..][..n - 1];
      PrefixAllowed(cfg, good, ApplyWrite(sys, ws[0]), ws[1..], n - 1);
    }
  }
}
