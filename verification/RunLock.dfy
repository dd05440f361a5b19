/** The fenced run lock: one lock file, a clock, a set of live processes, and any number of contenders
    (src/mootloop/vault.py:457-679). */
module RunLock {
  import opened Wrappers

  datatype Lock = Lock(pid: int, host: string, token: Option<nat>, startedAt: int, heartbeatAt: Option<int>)

  datatype File = Missing | Unreadable | Held(lock: Lock)

  /** One contender's lock object. */
  datatype Holder = Holder(
    pid: int, host: string, override: bool, threshold: nat, acquired: bool, token: Option<nat>)

  type Live = set<(string, int)>

  function Payload(h: Holder, startedAt: int, now: int): File {
    Held(Lock(h.pid, h.host, h.token, startedAt, Some(now)))
  }

  predicate Stale(l: Lock, h: Holder, now: int) {
    l.heartbeatAt.None? || now - l.heartbeatAt.value > h.threshold
  }

  /** Whether a contender may take an existing readable lock. */
  predicate MayTake(l: Lock, h: Holder, now: int, live: Live) {
    if l.host != h.host then h.override
    else (l.host, l.pid) !in live || Stale(l, h, now)
  }

  predicate MayAcquire(f: File, h: Holder, now: int, live: Live) {
    match f
    case Missing => true
    case Unreadable => h.override
    case Held(l) => MayTake(l, h, now, live)
  }

  /** A refused acquire forgets the token it drew but not that an earlier one succeeded. */
  function Acquire(f: File, h: Holder, now: int, live: Live, uuid: nat): (File, Holder, bool) {
    var drawn := h.(token := Some(uuid));
    if MayAcquire(f, h, now, live) then (Payload(drawn, now, now), drawn.(acquired := true), true)
    else (f, h.(token := None), false)
  }

  predicate Owns(f: File, h: Holder) {
    f.Held? && f.lock.token == h.token
  }

  function Heartbeat(f: File, h: Holder, now: int): (File, bool) {
    if h.acquired && Owns(f, h) then (Payload(h, f.lock.startedAt, now), true) else (f, false)
  }

  function Release(f: File, h: Holder): (File, Holder) {
    if !h.acquired then (f, h)
    else (if Owns(f, h) then Missing else f, h.(acquired := false, token := None))
  }

  /** A contender's lock object and its methods; the file, the clock, the live processes and the fresh
      token come from outside. */
  class LockObject {
    var me: Holder

    constructor (me: Holder)
      ensures this.me == me
    {
      this.me := me;
    }

    method AcquireLock(f: File, now: int, live: Live, uuid: nat) returns (file: File, ok: bool)
      modifies this
      ensures (file, me, ok) == Acquire(f, old(me), now, live, uuid)
    {
      me := me.(token := Some(uuid));
      match f {
        case Missing =>
        case Unreadable =>
          if !me.override {
            me := me.(token := None);
            return f, false;
          }
        case Held(existing) =>
          var taken := CheckTakeover(existing, now, live);
          if !taken {
            me := me.(token := None);
            return f, false;
          }
      }
      file := Payload(me, now, now);
      me := me.(acquired := true);
      ok := true;
    }

    method CheckTakeover(existing: Lock, now: int, live: Live) returns (ok: bool)
      ensures ok == MayTake(existing, me, now, live)
    {
      if existing.host != me.host {
        return me.override;
      }
      if (existing.host, existing.pid) in live {
        return Stale(existing, me, now);
      }
      return true;
    }

    method Beat(f: File, now: int) returns (file: File, ok: bool)
      ensures (file, ok) == Heartbeat(f, me, now)
    {
      if !me.acquired || !Owns(f, me) {
        return f, false;
      }
      return Payload(me, f.lock.startedAt, now), true;
    }

    method ReleaseLock(f: File) returns (file: File)
      modifies this
      ensures (file, me) == Release(f, old(me))
    {
      file := f;
      if !me.acquired {
        return;
      }
      if Owns(f, me) {
        file := Missing;
      }
      me := me.(acquired := false, token := None);
    }
  }

  // --- all contenders together ---------------------------------------------------------------------------

  /** `owner` is the latest successful acquirer, with its token, until it deletes its lock. */
  datatype World = World(
    file: File, holders: seq<Holder>, now: int, live: Live, used: set<nat>, owner: Option<(nat, nat)>)

  datatype Step =
    | DoAcquire(who: nat, uuid: nat)
    | DoHeartbeat(who: nat)
    | DoRelease(who: nat)
    | Tick(later: nat)
    | Processes(live: Live)

  predicate Enabled(w: World, s: Step) {
    match s
    case DoAcquire(k, uuid) => k < |w.holders| && uuid !in w.used
    case DoHeartbeat(k) => k < |w.holders|
    case DoRelease(k) => k < |w.holders|
    case _ => true
  }

  function Next(w: World, s: Step): World
    requires Enabled(w, s)
  {
    match s
    case DoAcquire(k, uuid) =>
      var (file, h, ok) := Acquire(w.file, w.holders[k], w.now, w.live, uuid);
      w.(file := file, holders := w.holders[k := h], used := w.used + {uuid},
         owner := if ok then Some((k, uuid)) else w.owner)
    case DoHeartbeat(k) => w.(file := Heartbeat(w.file, w.holders[k], w.now).0)
    case DoRelease(k) =>
      var (file, h) := Release(w.file, w.holders[k]);
      w.(file := file, holders := w.holders[k := h], owner := if file != w.file then None else w.owner)
    case Tick(d) => w.(now := w.now + d)
    case Processes(live) => w.(live := live)
  }

  /** Fresh contenders around a missing lock file. */
  predicate Initial(w: World) {
    && w.file == Missing && w.owner == None && w.used == {}
    && forall k :: 0 <= k < |w.holders| ==> !w.holders[k].acquired && w.holders[k].token == None
  }

  ghost predicate Runs(start: World, steps: seq<Step>, end: World)
    decreases |steps|
  {
    if steps == [] then end == start
    else Enabled(start, steps[0]) && Runs(Next(start, steps[0]), steps[1..], end)
  }

  /** The file's token is the owner's, and no other contender's token equals it. */
  ghost predicate Fenced(w: World) {
    && (w.owner.None? <==> w.file == Missing)
    && (w.owner.Some? ==>
          && w.owner.value.0 < |w.holders| && w.owner.value.1 in w.used
          && w.file.Held? && w.file.lock.token == Some(w.owner.value.1)
          && w.file.lock.pid == w.holders[w.owner.value.0].pid
          && w.file.lock.host == w.holders[w.owner.value.0].host)
    && (forall k :: 0 <= k < |w.holders| && w.holders[k].token.Some? ==> w.holders[k].token.value in w.used)
    && (forall j, k :: 0 <= j < k < |w.holders| && w.holders[j].token.Some? ==>
          w.holders[j].token != w.holders[k].token)
    && (forall k :: 0 <= k < |w.holders| && w.owner.Some? && w.holders[k].token == Some(w.owner.value.1) ==>
          k == w.owner.value.0)
  }

  lemma StepKeepsFence(w: World, s: Step)
    requires Fenced(w) && Enabled(w, s)
    ensures Fenced(Next(w, s))
  {
  }

  /** At every point of every run the lock file carries the token of the latest successful acquirer that
      has not deleted it. */
  lemma {:induction false} AlwaysFenced(start: World, steps: seq<Step>, end: World)
    requires Fenced(start) && Runs(start, steps, end)
    ensures Fenced(end)
    decreases |steps|
  {
    if steps != [] {
      StepKeepsFence(start, steps[0]);
      AlwaysFenced(Next(start, steps[0]), steps[1..], end);
    }
  }

  lemma RunsAreFenced(start: World, steps: seq<Step>, end: World)
    requires Initial(start) && Runs(start, steps, end)
    ensures Fenced(end)
  {
    AlwaysFenced(start, steps, end);
  }

  /** A displaced holder can neither refresh nor delete its successor's lock. */
  lemma DisplacedIsHarmless(start: World, steps: seq<Step>, w: World, k: nat)
    requires Initial(start) && Runs(start, steps, w) && k < |w.holders|
    requires w.owner.Some? && w.owner.value.0 != k
    ensures !Heartbeat(w.file, w.holders[k], w.now).1
    ensures Next(w, DoHeartbeat(k)).file == w.file
    ensures Next(w, DoRelease(k)).file == w.file && Next(w, DoRelease(k)).owner == w.owner
  {
    RunsAreFenced(start, steps, w);
  }

  /** The owner's process is alive and its lock was refreshed within every contender's threshold. */
  ghost predicate FreshlyHeld(w: World) {
    && w.owner.Some? && w.file.Held? && w.file.lock.heartbeatAt.Some?
    && (w.file.lock.host, w.file.lock.pid) in w.live
    && forall k :: 0 <= k < |w.holders| ==> !Stale(w.file.lock, w.holders[k], w.now)
  }

  /** While the owner is alive and fresh, no contender acquires: on the same host not even with the
      override, on another host only with it. Exactly then does an acquire succeed. */
  lemma FreshLockIsKept(w: World, s: Step)
    requires Fenced(w) && FreshlyHeld(w) && Enabled(w, s) && s.DoAcquire?
    ensures var h := w.holders[s.who];
      Next(w, s).owner != w.owner <==> h.override && h.host != w.file.lock.host
    ensures Next(w, s).owner == w.owner ==> Next(w, s).file == w.file
  {
  }

  /** Only the owner's own release, or an acquire, changes who owns the lock. */
  lemma OwnerChanges(w: World, s: Step)
    requires Fenced(w) && Enabled(w, s) && Next(w, s).owner != w.owner
    ensures (s.DoRelease? && w.owner.Some? && s.who == w.owner.value.0 && Next(w, s).file == Missing)
         || (s.DoAcquire? && Next(w, s).owner == Some((s.who, s.uuid)))
  {
  }

  /** Nobody without the override takes a lock away during any stretch in which its owner stays alive and
      fresh and does not release it or acquire again. */
  lemma {:induction false} ExclusiveWhileFresh(w: World, steps: seq<Step>, end: World)
    requires Fenced(w) && w.owner.Some? && Runs(w, steps, end) && FreshThroughout(w, steps)
    requires forall k :: 0 <= k < |w.holders| ==> !w.holders[k].override
    requires forall i :: 0 <= i < |steps| && steps[i].DoRelease? ==> steps[i].who != w.owner.value.0
    ensures end.owner == w.owner && end.file.Held? && end.file.lock.token == Some(w.owner.value.1)
    decreases |steps|
  {
    if steps != [] {
      StepKeepsFence(w, steps[0]);
      if steps[0].DoAcquire? {
        FreshLockIsKept(w, steps[0]);
      }
      var next := Next(w, steps[0]);
      assert next.owner == w.owner;
      assert forall k :: 0 <= k < |next.holders| ==> next.holders[k].override == w.holders[k].override;
      ExclusiveWhileFresh(next, steps[1..], end);
    }
  }

  ghost predicate FreshThroughout(w: World, steps: seq<Step>)
    decreases |steps|
  {
    FreshlyHeld(w) && (steps != [] && Enabled(w, steps[0]) ==> FreshThroughout(Next(w, steps[0]), steps[1..]))
  }

  // --- exactly when a contender can still use the lock -----------------------------------------------------

  /** The contender holds the lock and the file is its own. */
  predicate Usable(w: World, k: nat) {
    k < |w.holders| && w.holders[k].acquired && Owns(w.file, w.holders[k])
  }

  /** To hold the lock is to be able to refresh it, and to be able to delete it. */
  lemma UsableMeans(w: World, k: nat)
    requires Fenced(w) && k < |w.holders|
    ensures Heartbeat(w.file, w.holders[k], w.now).1 <==> Usable(w, k)
    ensures Next(w, DoRelease(k)).file != w.file <==> Usable(w, k)
    ensures Usable(w, k) ==> w.owner.Some? && w.owner.value.0 == k
  {
  }

  /** The contender's own process is alive and its lock is fresh by its own threshold. */
  predicate SelfRefused(w: World, k: nat)
    requires k < |w.holders|
  {
    w.file.Held? && (w.file.lock.host, w.file.lock.pid) in w.live && !Stale(w.file.lock, w.holders[k], w.now)
  }

  /** An owner that acquires again keeps its lock exactly when that second acquire is granted, and it is
      refused exactly when the owner is alive and its own lock is fresh. */
  lemma ReacquireExactly(w: World, k: nat, uuid: nat)
    requires Fenced(w) && w.owner.Some? && w.owner.value.0 == k && w.holders[k].acquired && uuid !in w.used
    ensures var next := Next(w, DoAcquire(k, uuid));
      && (Usable(next, k) <==> !SelfRefused(w, k))
      && (SelfRefused(w, k) ==> next.file == w.file && next.owner == w.owner)
  {
    StepKeepsFence(w, DoAcquire(k, uuid));
  }

  predicate Granted(w: World, s: Step)
    requires Enabled(w, s) && s.DoAcquire?
  {
    MayAcquire(w.file, w.holders[s.who], w.now, w.live)
  }

  predicate Gains(w: World, s: Step, k: nat)
    requires Enabled(w, s)
  {
    s.DoAcquire? && s.who == k && Granted(w, s)
  }

  /** Its own release, another's granted acquire, or its own refused one. */
  predicate Spoils(w: World, s: Step, k: nat)
    requires Enabled(w, s)
  {
    s == DoRelease(k) || (s.DoAcquire? && (s.who == k <==> !Granted(w, s)))
  }

  lemma StepUsable(w: World, s: Step, k: nat)
    requires Fenced(w) && Enabled(w, s) && k < |w.holders|
    ensures Usable(Next(w, s), k) <==> Gains(w, s, k) || (Usable(w, k) && !Spoils(w, s, k))
  {
    StepKeepsFence(w, s);
  }

  ghost predicate Unspoiled(w: World, steps: seq<Step>, k: nat)
    decreases |steps|
  {
    steps == [] || (Enabled(w, steps[0]) && !Spoils(w, steps[0], k) && Unspoiled(Next(w, steps[0]), steps[1..], k))
  }

  /** Somewhere along the way the contender was granted the lock, and nothing after that spoiled it. */
  ghost predicate GainedAndKept(w: World, steps: seq<Step>, k: nat)
    decreases |steps|
  {
    steps != [] && Enabled(w, steps[0]) &&
    var next := Next(w, steps[0]);
    (Gains(w, steps[0], k) && Unspoiled(next, steps[1..], k)) || GainedAndKept(next, steps[1..], k)
  }

  /** Along any stretch: a contender ends able to refresh and delete the lock exactly when it began so and
      neither released it, nor lost it to another's granted acquire, nor had an acquire of its own refused;
      or when one of its acquires was granted and none of these followed. */
  lemma {:induction false} UsableExactly(w: World, steps: seq<Step>, end: World, k: nat)
    requires Fenced(w) && Runs(w, steps, end) && k < |w.holders|
    ensures |end.holders| == |w.holders|
    ensures Usable(end, k) <==> (Usable(w, k) && Unspoiled(w, steps, k)) || GainedAndKept(w, steps, k)
    decreases |steps|
  {
    if steps != [] {
      var next := Next(w, steps[0]);
      StepKeepsFence(w, steps[0]);
      StepUsable(w, steps[0], k);
      assert |next.holders| == |w.holders|;
      hide Fenced, Next, Gains, Spoils, Usable;
      UsableExactly(next, steps[1..], end, k);
    }
  }

  /** From the start: a contender can use the lock exactly when its last granted acquire was spoiled by
      nothing after it. */
  lemma UsableFromStart(start: World, steps: seq<Step>, end: World, k: nat)
    requires Initial(start) && Runs(start, steps, end) && k < |start.holders|
    ensures |end.holders| == |start.holders|
    ensures Heartbeat(end.file, end.holders[k], end.now).1 <==> GainedAndKept(start, steps, k)
  {
    UsableExactly(start, steps, end, k);
    RunsAreFenced(start, steps, end);
    UsableMeans(end, k);
  }

  /** An owner refused its own lock is fenced out of it: it can no longer refresh or delete the file it
      created. */
  lemma ReacquireStrandsTheLock(w: World, uuid: nat)
    requires Fenced(w) && w.owner.Some? && uuid !in w.used && SelfRefused(w, w.owner.value.0)
    ensures var k := w.owner.value.0;
      var next := Next(w, DoAcquire(k, uuid));
      && next.owner == w.owner && next.file == w.file
      && next.holders[k].acquired == w.holders[k].acquired
      && !Heartbeat(next.file, next.holders[k], next.now).1
      && Next(next, DoRelease(k)).file == w.file
  {
  }
}
