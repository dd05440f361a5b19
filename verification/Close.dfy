/** Closing a matter: prepare, detach, purge, retain a tombstone and a record. Every durable write is a
    step, a crash can follow any step, and the next attempt re-enters the same function
    (src/mootloop/close.py:527-785). */
module Close {
  import opened Wrappers

  datatype Retention = Retention(hold: bool, destructionDate: Option<int>)

  predicate Eligible(r: Retention, today: int) {
    !r.hold && r.destructionDate.Some? && r.destructionDate.value <= today
  }

  /** A vault directory: its identity on disk, how many files it still holds, and its audit head. */
  datatype Vault = Vault(inode: nat, files: nat, retention: Retention, auditHead: string)

  /** The anonymized access entry; equal entries have equal hashes. */
  datatype Tombstone = Tombstone(ts: int, actor: string, prevHash: string)

  /** `of` is the vault the record was prepared from. */
  datatype Record = Record(closedAt: int, closedBy: string, tombstone: Tombstone, of: nat)

  datatype Intent = Intent(record: Record, inode: nat, quarantineId: string, detached: bool)

  /** The matters root as one matter's close sees it. The last five fields are history: every vault ever
      created, those removed by someone else, those this protocol destroyed, those it destroyed any file
      of, and those whose retention allowed it when they were detached. */
  datatype World = World(
    active: Option<Vault>,
    intent: Option<Intent>,
    quarantine: map<string, Vault>,
    tombstones: seq<Tombstone>,
    record: Option<Record>,
    created: set<nat>,
    away: set<nat>,
    gone: set<nat>,
    touched: set<nat>,
    cleared: set<nat>)

  datatype Write =
    | PutIntent(intent: Intent)
    | Detach(quarantineId: string)
    | DropFile(quarantineId: string)
    | DropRoot(quarantineId: string)
    | AddTombstone(tombstone: Tombstone)
    | PutRecord(record: Record)
    | DropIntent

  function ApplyWrite(w: World, x: Write): World {
    match x
    case PutIntent(i) => w.(intent := Some(i))
    case Detach(q) =>
      if w.active.None? then w
      else w.(active := None, quarantine := w.quarantine[q := w.active.value],
              cleared := w.cleared + {w.active.value.inode})
    case DropFile(q) =>
      if q !in w.quarantine then w
      else
        var v := w.quarantine[q];
        w.(quarantine := w.quarantine[q := v.(files := if v.files == 0 then 0 else v.files - 1)],
           touched := w.touched + {v.inode})
    case DropRoot(q) =>
      if q !in w.quarantine then w
      else w.(quarantine := w.quarantine - {q}, gone := w.gone + {w.quarantine[q].inode},
              touched := w.touched + {w.quarantine[q].inode})
    case AddTombstone(t) => w.(tombstones := w.tombstones + [t])
    case PutRecord(r) => w.(record := Some(r))
    case DropIntent => w.(intent := None)
  }

  function ApplyAll(w: World, xs: seq<Write>): World
    decreases |xs|
  {
    if xs == [] then w else ApplyAll(ApplyWrite(w, xs[0]), xs[1..])
  }

  // --- one attempt ----------------------------------------------------------------------------------------

  datatype Refusal =
    | ReplacementQuarantine | ReplacementVault | LostVault | UnknownMatter | LiveRun | UnderHold
    | NoDestructionDate | NotYetEligible | BackupFailed

  /** The caller's inputs: the clock, the actor, a fresh quarantine name, and whether the run lock and the
      backup came through. */
  datatype Request = Request(today: int, actor: string, freshId: string, lockFree: bool, backedUp: bool)

  datatype Attempt = Attempt(writes: seq<Write>, refusal: Option<Refusal>)

  /** Recursive removal, ending with the root directory. */
  function Purge(q: string, files: nat): seq<Write> {
    if files == 0 then [DropRoot(q)] else [DropFile(q)] + Purge(q, files - 1)
  }

  /** The log keeps one tombstone per entry hash. */
  function Finish(w: World, i: Intent): seq<Write> {
    (if i.record.tombstone in w.tombstones then [] else [AddTombstone(i.record.tombstone)])
    + [PutRecord(i.record), DropIntent]
  }

  /** From a detached quarantine to the end. */
  function Destroy(w: World, i: Intent, files: nat): seq<Write> {
    [PutIntent(i.(detached := true))] + (Purge(i.quarantineId, files) + Finish(w, i))
  }

  function Policy(r: Retention, today: int): Option<Refusal> {
    if r.hold then Some(UnderHold)
    else if r.destructionDate.None? then Some(NoDestructionDate)
    else if today < r.destructionDate.value then Some(NotYetEligible)
    else None
  }

  function Prepare(v: Vault, q: Request): Intent {
    Intent(Record(q.today, q.actor, Tombstone(q.today, q.actor, v.auditHead), v.inode), v.inode, q.freshId, false)
  }

  /** A fresh close of the active vault. */
  function CloseActive(w: World, q: Request): Attempt {
    if w.active.None? then Attempt([], Some(UnknownMatter))
    else
      var v := w.active.value;
      if !q.lockFree then Attempt([], Some(LiveRun))
      else if Policy(v.retention, q.today).Some? then Attempt([], Policy(v.retention, q.today))
      else if !q.backedUp then Attempt([], Some(BackupFailed))
      else
        var i := Prepare(v, q);
        Attempt([PutIntent(i), Detach(i.quarantineId)] + Destroy(w, i, v.files), None)
  }

  function CloseMatter(w: World, q: Request): Attempt {
    if w.intent.Some? && w.intent.value.quarantineId in w.quarantine then
      var i := w.intent.value;
      var held := w.quarantine[i.quarantineId];
      if held.inode != i.inode then Attempt([], Some(ReplacementQuarantine))
      else Attempt(Destroy(w, i, held.files), None)
    else if w.intent.Some? && w.intent.value.detached then Attempt(Finish(w, w.intent.value), None)
    else if w.intent.Some? && w.active.None? then Attempt([], Some(LostVault))
    else if w.intent.Some? && w.active.value.inode != w.intent.value.inode then Attempt([], Some(ReplacementVault))
    else if w.active.None? && w.record.Some? then Attempt([], None)
    else CloseActive(w, q)
  }

  // --- what every step keeps --------------------------------------------------------------------------------

  function Held(w: World): set<nat> {
    set q | q in w.quarantine :: w.quarantine[q].inode
  }

  function Live(w: World): set<nat> {
    if w.active.Some? then {w.active.value.inode} else {}
  }

  /** Every vault is in exactly one place: active, quarantined, destroyed, or taken away by someone else. */
  ghost predicate OnePlace(w: World) {
    && w.created == Live(w) + Held(w) + w.gone + w.away
    && Live(w) !! Held(w) && Live(w) !! w.gone && Live(w) !! w.away
    && Held(w) !! w.gone && Held(w) !! w.away && w.gone !! w.away
  }

  ghost predicate IntentOk(w: World) {
    match w.intent
    case None => w.quarantine == map[]
    case Some(i) =>
      && i.record.of == i.inode && i.inode in w.created
      && w.quarantine.Keys <= {i.quarantineId}
      && (i.detached ==> i.inode in w.cleared)
      && (i.detached && i.quarantineId !in w.quarantine ==> i.inode in w.gone)
      && (i.quarantineId in w.quarantine && w.quarantine[i.quarantineId].inode == i.inode ==> i.inode in w.cleared)
  }

  ghost predicate RecordOk(w: World) {
    w.record.Some? ==> w.record.value.of in w.gone && w.record.value.tombstone in w.tombstones
  }

  ghost predicate OneTombstone(w: World) {
    forall i, j :: 0 <= i < j < |w.tombstones| ==> w.tombstones[i] != w.tombstones[j]
  }

  /** Nothing is destroyed before it was detached under a retention that allowed it. */
  ghost predicate DestroyedAfterClearance(w: World) {
    w.cleared <= w.created && w.touched <= w.cleared && w.gone <= w.touched && Live(w) !! w.cleared
  }

  ghost predicate Inv(w: World) {
    OnePlace(w) && IntentOk(w) && RecordOk(w) && OneTombstone(w) && DestroyedAfterClearance(w)
  }

  /** The original vault sits in the quarantine its intent names. */
  predicate Holds(w: World, q: string) {
    && w.intent.Some? && w.intent.value.quarantineId == q
    && q in w.quarantine && w.quarantine[q].inode == w.intent.value.inode
  }

  predicate Emptied(w: World) {
    w.intent.Some? && w.intent.value.detached && w.intent.value.quarantineId !in w.quarantine
  }

  /** When a write may happen. `today` is the date of the attempt that makes it. */
  ghost predicate Allows(w: World, x: Write, today: int) {
    match x
    case PutIntent(i) =>
      if i.detached then Holds(w, i.quarantineId) && i == w.intent.value.(detached := true)
      else
        && w.active.Some? && w.active.value.inode == i.inode && i.record.of == i.inode
        && Eligible(w.active.value.retention, today) && w.quarantine == map[]
    case Detach(q) =>
      && w.intent.Some? && !w.intent.value.detached && w.intent.value.quarantineId == q && w.quarantine == map[]
      && w.active.Some? && w.active.value.inode == w.intent.value.inode
      && Eligible(w.active.value.retention, today)
    case DropFile(q) => Holds(w, q) && w.intent.value.detached && w.quarantine[q].files > 0
    case DropRoot(q) => Holds(w, q) && w.intent.value.detached && w.quarantine[q].files == 0
    case AddTombstone(t) => Emptied(w) && t == w.intent.value.record.tombstone && t !in w.tombstones
    case PutRecord(r) => Emptied(w) && r == w.intent.value.record && r.tombstone in w.tombstones
    case DropIntent => Emptied(w) && w.record == Some(w.intent.value.record)
  }

  lemma HeldOf(w: World, q: string)
    requires w.quarantine.Keys == {q}
    ensures Held(w) == {w.quarantine[q].inode}
  {
  }

  lemma HeldIs(w: World)
    requires IntentOk(w) && w.intent.Some?
    ensures var i := w.intent.value;
      Held(w) == if i.quarantineId in w.quarantine then {w.quarantine[i.quarantineId].inode} else {}
  {
  }

  lemma KeepsPlaces(w: World, x: Write, today: int)
    requires Inv(w) && Allows(w, x, today)
    ensures OnePlace(ApplyWrite(w, x))
  {
    if w.intent.Some? {
      HeldIs(w);
    }
    var next := ApplyWrite(w, x);
    match x
    case Detach(q) =>
      assert Held(next) == {w.active.value.inode};
    case DropFile(q) =>
      assert next.quarantine.Keys == w.quarantine.Keys;
      HeldOf(w, q);
      HeldOf(next, q);
    case DropRoot(q) =>
      assert next.quarantine == map[];
      assert Held(next) == {};
    case _ =>
  }

  /** Every allowed write keeps the invariant. */
  lemma KeepsInv(w: World, x: Write, today: int)
    requires Inv(w) && Allows(w, x, today)
    ensures Inv(ApplyWrite(w, x))
  {
    KeepsPlaces(w, x, today);
    if w.intent.Some? {
      HeldIs(w);
    }
  }

  /** A write that destroys anything destroys only the vault its durable, detached intent names; a vault
      put in the original's place is never touched. */
  lemma DestroysOnlyTheOriginal(w: World, x: Write, today: int)
    requires Inv(w) && Allows(w, x, today)
    ensures var next := ApplyWrite(w, x);
      next.gone != w.gone || next.touched != w.touched ==>
        && w.intent.Some? && w.intent.value.detached
        && next.touched == w.touched + {w.intent.value.inode} && next.active == w.active
        && next.gone <= w.gone + {w.intent.value.inode} && w.intent.value.inode in w.cleared
  {
  }

  // --- an attempt makes only allowed writes ---------------------------------------------------------------------

  ghost predicate AllowsAll(w: World, xs: seq<Write>, today: int)
    decreases |xs|
  {
    xs == [] || (Allows(w, xs[0], today) && AllowsAll(ApplyWrite(w, xs[0]), xs[1..], today))
  }

  lemma AllowsCons(w: World, x: Write, xs: seq<Write>, today: int)
    requires Allows(w, x, today) && AllowsAll(ApplyWrite(w, x), xs, today)
    ensures AllowsAll(w, [x] + xs, today) && ApplyAll(w, [x] + xs) == ApplyAll(ApplyWrite(w, x), xs)
  {
    assert ([x] + xs)[1..] == xs;
  }

  /** What a completed close leaves. */
  ghost predicate Completed(w: World, i: Intent) {
    && w.intent.None? && w.quarantine == map[] && w.record == Some(i.record)
    && i.inode in w.gone && i.record.tombstone in w.tombstones
  }

  lemma FinishAllowed(w: World, today: int)
    requires Inv(w) && Emptied(w)
    ensures AllowsAll(w, Finish(w, w.intent.value), today)
    ensures Completed(ApplyAll(w, Finish(w, w.intent.value)), w.intent.value)
    ensures ApplyAll(w, Finish(w, w.intent.value)).active == w.active
  {
    var i := w.intent.value;
    var t := AddTombstone(i.record.tombstone);
    var w1 := if i.record.tombstone in w.tombstones then w else ApplyWrite(w, t);
    if w1 != w {
      KeepsInv(w, t, today);
      assert w1.tombstones[|w.tombstones|] == i.record.tombstone;
    }
    HeldIs(w1);
    assert w1.quarantine == map[];
    var w2 := ApplyWrite(w1, PutRecord(i.record));
    assert AllowsAll(ApplyWrite(w2, DropIntent), [], today);
    AllowsCons(w2, DropIntent, [], today);
    AllowsCons(w1, PutRecord(i.record), [DropIntent], today);
    assert [PutRecord(i.record)] + [DropIntent] == [PutRecord(i.record), DropIntent];
    if w1 != w {
      AllowsCons(w, t, [PutRecord(i.record), DropIntent], today);
    } else {
      assert [] + [PutRecord(i.record), DropIntent] == [PutRecord(i.record), DropIntent];
    }
  }

  lemma {:induction false} PurgeAllowed(w: World, today: int, files: nat)
    requires Inv(w) && w.intent.Some? && w.intent.value.detached && Holds(w, w.intent.value.quarantineId)
    requires files == w.quarantine[w.intent.value.quarantineId].files
    ensures var i := w.intent.value;
      var xs := Purge(i.quarantineId, files) + Finish(w, i);
      && AllowsAll(w, xs, today) && Completed(ApplyAll(w, xs), i) && ApplyAll(w, xs).active == w.active
    decreases files
  {
    var i := w.intent.value;
    var q := i.quarantineId;
    if files == 0 {
      var x := DropRoot(q);
      KeepsInv(w, x, today);
      FinishAllowed(ApplyWrite(w, x), today);
      AllowsCons(w, x, Finish(w, i), today);
    } else {
      var x := DropFile(q);
      KeepsInv(w, x, today);
      PurgeAllowed(ApplyWrite(w, x), today, files - 1);
      var rest := Purge(q, files - 1) + Finish(w, i);
      AllowsCons(w, x, rest, today);
      assert ([x] + Purge(q, files - 1)) + Finish(w, i) == [x] + rest;
    }
  }

  lemma DestroyAllowed(w: World, today: int)
    requires Inv(w) && w.intent.Some? && Holds(w, w.intent.value.quarantineId)
    ensures var i := w.intent.value;
      var xs := Destroy(w, i, w.quarantine[i.quarantineId].files);
      && AllowsAll(w, xs, today) && Completed(ApplyAll(w, xs), i.(detached := true))
      && ApplyAll(w, xs).active == w.active
  {
    var i := w.intent.value;
    var x := PutIntent(i.(detached := true));
    KeepsInv(w, x, today);
    var w1 := ApplyWrite(w, x);
    PurgeAllowed(w1, today, w.quarantine[i.quarantineId].files);
    AllowsCons(w, x, Purge(i.quarantineId, w.quarantine[i.quarantineId].files) + Finish(w1, w1.intent.value), today);
  }

  lemma CloseActiveAllowed(w: World, q: Request)
    requires Inv(w) && w.quarantine == map[]
    ensures AllowsAll(w, CloseActive(w, q).writes, q.today)
    ensures CloseActive(w, q).refusal.None? ==>
      && w.active.Some?
      && Completed(ApplyAll(w, CloseActive(w, q).writes), Prepare(w.active.value, q).(detached := true))
      && ApplyAll(w, CloseActive(w, q).writes).active.None?
  {
    if CloseActive(w, q).refusal.None? {
      var v := w.active.value;
      var i := Prepare(v, q);
      KeepsInv(w, PutIntent(i), q.today);
      var w1 := ApplyWrite(w, PutIntent(i));
      KeepsInv(w1, Detach(i.quarantineId), q.today);
      var w2 := ApplyWrite(w1, Detach(i.quarantineId));
      DestroyAllowed(w2, q.today);
      var xs := Destroy(w2, i, v.files);
      AllowsCons(w1, Detach(i.quarantineId), xs, q.today);
      AllowsCons(w, PutIntent(i), [Detach(i.quarantineId)] + xs, q.today);
      assert [PutIntent(i)] + ([Detach(i.quarantineId)] + xs) == [PutIntent(i), Detach(i.quarantineId)] + xs;
    }
  }

  lemma AttemptAllowed(w: World, q: Request)
    requires Inv(w)
    ensures AllowsAll(w, CloseMatter(w, q).writes, q.today)
  {
    if w.intent.Some? && Holds(w, w.intent.value.quarantineId) {
      DestroyAllowed(w, q.today);
    } else if w.intent.Some? && w.intent.value.quarantineId !in w.quarantine && w.intent.value.detached {
      FinishAllowed(w, q.today);
    } else if w.intent.None? || w.intent.value.quarantineId !in w.quarantine {
      assert w.quarantine == map[];
      CloseActiveAllowed(w, q);
    }
  }

  /** Once the vault has left its place, the next attempt completes the prepared close, whatever the
      clock, the retention or the backup now say, and leaves alone any new vault in the old place. */
  lemma RecoveryCompletes(w: World, q: Request)
    requires Inv(w) && w.intent.Some?
    requires Holds(w, w.intent.value.quarantineId) || Emptied(w)
    ensures var next := ApplyAll(w, CloseMatter(w, q).writes);
      && CloseMatter(w, q).refusal.None? && next.active == w.active
      && Completed(next, w.intent.value.(detached := true))
  {
    if Holds(w, w.intent.value.quarantineId) {
      DestroyAllowed(w, q.today);
    } else {
      FinishAllowed(w, q.today);
    }
  }

  /** Before that, the next attempt starts over: it closes the vault exactly when the lock, the retention
      of that moment and the backup allow it. */
  lemma RetryRechecks(w: World, q: Request)
    requires Inv(w) && w.intent.Some? && !w.intent.value.detached && w.intent.value.quarantineId !in w.quarantine
    requires w.active.Some? && w.active.value.inode == w.intent.value.inode
    ensures var next := ApplyAll(w, CloseMatter(w, q).writes);
      && (CloseMatter(w, q).refusal.None? <==>
            q.lockFree && Eligible(w.active.value.retention, q.today) && q.backedUp)
      && (CloseMatter(w, q).refusal.Some? ==> next == w)
      && (CloseMatter(w, q).refusal.None? ==> w.active.value.inode in next.gone && next.active.None?)
  {
    assert w.quarantine == map[];
    CloseActiveAllowed(w, q);
  }

  // --- whole histories ----------------------------------------------------------------------------------------------

  /** An attempt that died after `reached` writes, or something done to the directories from outside. */
  datatype Step =
    | Try(request: Request, reached: nat)
    | Create(vault: Vault)
    | TakeAway
    | SetRetention(retention: Retention)
    | SwapQuarantine(vault: Vault)

  function Next(w: World, s: Step): World {
    match s
    case Try(q, reached) =>
      var xs := CloseMatter(w, q).writes;
      ApplyAll(w, xs[..if reached < |xs| then reached else |xs|])
    case Create(v) =>
      if w.active.Some? || v.inode in w.created then w
      else w.(active := Some(v), created := w.created + {v.inode})
    case TakeAway =>
      if w.active.None? then w else w.(active := None, away := w.away + {w.active.value.inode})
    case SetRetention(r) => if w.active.None? then w else w.(active := Some(w.active.value.(retention := r)))
    case SwapQuarantine(v) =>
      if w.intent.None? || w.intent.value.quarantineId !in w.quarantine || v.inode in w.created then w
      else
        var q := w.intent.value.quarantineId;
        w.(quarantine := w.quarantine[q := v], created := w.created + {v.inode},
           away := w.away + {w.quarantine[q].inode})
  }

  const Nothing := World(None, None, map[], [], None, {}, {}, {}, {}, {})

  function Reach(history: seq<Step>): World {
    if history == [] then Nothing else Next(Reach(history[..|history| - 1]), history[|history| - 1])
  }

  lemma {:induction false} InvAfterCrash(w: World, xs: seq<Write>, today: int, n: nat)
    requires Inv(w) && AllowsAll(w, xs, today) && n <= |xs|
    ensures Inv(ApplyAll(w, xs[..n]))
    decreases n
  {
    if n > 0 {
      KeepsInv(w, xs[0], today);
      assert xs[..n][1..] == xs[1..][..n - 1];
      InvAfterCrash(ApplyWrite(w, xs[0]), xs[1..], today, n - 1);
    }
  }

  lemma OutsideKeepsInv(w: World, s: Step)
    requires Inv(w) && !s.Try?
    ensures Inv(Next(w, s))
  {
    if w.intent.Some? {
      HeldIs(w);
    }
    var next := Next(w, s);
    if s.SwapQuarantine? {
      if next != w {
        var q := w.intent.value.quarantineId;
        assert next.quarantine.Keys == w.quarantine.Keys;
        assert Held(next) == {s.vault.inode};
      }
    } else {
      assert Held(next) == Held(w);
    }
  }

  lemma StepKeepsInv(w: World, s: Step)
    requires Inv(w)
    ensures Inv(Next(w, s))
  {
    if s.Try? {
      AttemptAllowed(w, s.request);
      var xs := CloseMatter(w, s.request).writes;
      InvAfterCrash(w, xs, s.request.today, if s.reached < |xs| then s.reached else |xs|);
    } else {
      OutsideKeepsInv(w, s);
    }
  }

  /** After any attempts, each dying anywhere, and any interference: every vault is in one place, nothing
      was destroyed before a detachment its retention allowed, a record means its vault is destroyed, and
      no close leaves two tombstones. */
  lemma {:induction false} EveryHistoryIsSafe(history: seq<Step>)
    ensures Inv(Reach(history))
  {
    if history != [] {
      var w, s := Reach(history[..|history| - 1]), history[|history| - 1];
      EveryHistoryIsSafe(history[..|history| - 1]);
      StepKeepsInv(w, s);
    } else {
      assert Held(Nothing) == {};
    }
  }

  lemma {:induction false} ApplyConcat(w: World, a: seq<Write>, b: seq<Write>)
    ensures ApplyAll(w, a + b) == ApplyAll(ApplyAll(w, a), b)
    decreases |a|
  {
    if a == [] {
      assert a + b == b;
    } else {
      assert (a + b)[1..] == a[1..] + b;
      ApplyConcat(ApplyWrite(w, a[0]), a[1..], b);
    }
  }

  lemma ApplyOne(w: World, x: Write)
    ensures ApplyAll(w, [x]) == ApplyWrite(w, x)
  {
    assert [x][1..] == [];
  }

  // --- a record beside a vault --------------------------------------------------------------------------------

  /** The original vault has left its place: it waits in its quarantine or is destroyed. */
  predicate Departed(w: World) {
    w.intent.Some? && (Holds(w, w.intent.value.quarantineId) || Emptied(w))
  }

  /** Every close that completes leaves a record and no quarantine; it leaves the old place empty too,
      except exactly when it was a recovery and a vault was there. */
  lemma CompletedLeaves(w: World, q: Request)
    requires Inv(w) && CloseMatter(w, q).refusal.None? && CloseMatter(w, q).writes != []
    ensures var next := ApplyAll(w, CloseMatter(w, q).writes);
      && next.record.Some? && next.record.value.of in next.gone && next.quarantine == map[]
      && (next.active.None? <==> !Departed(w) || w.active.None?)
  {
    if Departed(w) {
      RecoveryCompletes(w, q);
    } else {
      CloseActiveAllowed(w, q);
    }
  }

  function After(w: World, steps: seq<Step>): World
    decreases |steps|
  {
    if steps == [] then w else After(Next(w, steps[0]), steps[1..])
  }

  ghost predicate StaysDeparted(w: World, steps: seq<Step>)
    decreases |steps|
  {
    Departed(w) && (steps == [] || StaysDeparted(Next(w, steps[0]), steps[1..]))
  }

  predicate Puts(w: World, s: Step) {
    s.Create? && w.active.None? && s.vault.inode !in w.created
  }

  predicate NoneTaken(steps: seq<Step>) {
    forall i :: 0 <= i < |steps| ==> !steps[i].TakeAway?
  }

  /** A new vault was put in the old place and nobody took it away. */
  ghost predicate PutSince(w: World, steps: seq<Step>)
    decreases |steps|
  {
    steps != [] && ((Puts(w, steps[0]) && NoneTaken(steps[1..])) || PutSince(Next(w, steps[0]), steps[1..]))
  }

  lemma {:induction false} SameActive(w: World, xs: seq<Write>)
    requires forall x :: x in xs ==> !x.Detach?
    ensures ApplyAll(w, xs).active == w.active
    decreases |xs|
  {
    if xs != [] {
      assert !xs[0].Detach?;
      SameActive(ApplyWrite(w, xs[0]), xs[1..]);
    }
  }

  lemma {:induction false} PurgeDetachesNone(q: string, files: nat)
    ensures forall x :: x in Purge(q, files) ==> !x.Detach?
  {
    if files > 0 {
      PurgeDetachesNone(q, files - 1);
    }
  }

  lemma RecoveryDetachesNone(w: World, q: Request)
    requires Departed(w)
    ensures forall x :: x in CloseMatter(w, q).writes ==> !x.Detach?
  {
    var i := w.intent.value;
    if i.quarantineId in w.quarantine {
      PurgeDetachesNone(i.quarantineId, w.quarantine[i.quarantineId].files);
    }
  }

  lemma DepartedStep(w: World, s: Step)
    requires Departed(w)
    ensures Next(w, s).active.Some? <==> Puts(w, s) || (w.active.Some? && !s.TakeAway?)
  {
    if s.Try? {
      RecoveryDetachesNone(w, s.request);
      var xs := CloseMatter(w, s.request).writes;
      SameActive(w, xs[..if s.reached < |xs| then s.reached else |xs|]);
    }
  }

  lemma {:induction false} ActiveExactly(w: World, steps: seq<Step>)
    requires StaysDeparted(w, steps)
    ensures After(w, steps).active.Some? <==> (w.active.Some? && NoneTaken(steps)) || PutSince(w, steps)
    ensures Departed(After(w, steps))
    decreases |steps|
  {
    if steps != [] {
      DepartedStep(w, steps[0]);
      ActiveExactly(Next(w, steps[0]), steps[1..]);
      assert NoneTaken(steps) <==> !steps[0].TakeAway? && NoneTaken(steps[1..]) by {
        assert forall i :: 1 <= i < |steps| ==> steps[i] == steps[1..][i - 1];
      }
    }
  }

  lemma {:induction false} StepsKeepInv(w: World, steps: seq<Step>)
    requires Inv(w)
    ensures Inv(After(w, steps))
    decreases |steps|
  {
    if steps != [] {
      StepKeepsInv(w, steps[0]);
      StepsKeepInv(Next(w, steps[0]), steps[1..]);
    }
  }

  /** From the detachment on, whatever attempts died and whatever was done to the directories: the recovery
      that completes leaves its record beside a vault exactly when a new vault was put in the old place and
      not taken away. */
  lemma RecordBesideVaultExactly(w: World, steps: seq<Step>, q: Request)
    requires Inv(w) && w.active.None? && StaysDeparted(w, steps)
    ensures var end := After(w, steps);
      var next := ApplyAll(end, CloseMatter(end, q).writes);
      && Departed(end) && CloseMatter(end, q).refusal.None? && next.record == Some(end.intent.value.record)
      && next.quarantine == map[] && (next.active.Some? <==> PutSince(w, steps))
  {
    StepsKeepInv(w, steps);
    ActiveExactly(w, steps);
    RecoveryCompletes(After(w, steps), q);
  }

  /** It happens: an attempt dies after the detachment, a new vault is created, and the next attempt
      completes the old close beside it. */
  lemma RecordBesideVault(v: Vault, again: Vault, q: Request, later: Request)
    requires v.inode != again.inode && Eligible(v.retention, q.today) && q.lockFree && q.backedUp
    ensures var crashed := Reach([Create(v), Try(q, 2), Create(again)]);
      var done := ApplyAll(crashed, CloseMatter(crashed, later).writes);
      && crashed.record.None? && done.record.Some? && done.active == Some(again) && done.quarantine == map[]
  {
    var h := [Create(v), Try(q, 2), Create(again)];
    assert h[..2] == [Create(v), Try(q, 2)] && h[..2][..1] == h[..1] && h[..1][..0] == [];
    var w1 := Reach(h[..1]);
    assert Reach([]) == Nothing && h[..1][0] == Create(v);
    assert Reach(h[..1]) == Next(Reach(h[..1][..0]), h[..1][0]);
    assert w1 == Nothing.(active := Some(v), created := {v.inode});
    var i := Prepare(v, q);
    var xs := CloseMatter(w1, q).writes;
    assert xs[..2] == [PutIntent(i)] + [Detach(i.quarantineId)];
    ApplyConcat(w1, [PutIntent(i)], [Detach(i.quarantineId)]);
    ApplyOne(w1, PutIntent(i));
    ApplyOne(ApplyWrite(w1, PutIntent(i)), Detach(i.quarantineId));
    var w2 := Reach(h[..2]);
    assert w2 == w1.(active := None, intent := Some(i), quarantine := map[i.quarantineId := v], cleared := {v.inode});
    EveryHistoryIsSafe(h);
    RecoveryCompletes(Reach(h), later);
  }

  // --- the service ------------------------------------------------------------------------------------------------

  lemma {:induction false} PurgeLeavesTombstones(w: World, q: string, files: nat)
    ensures var next := ApplyAll(w, Purge(q, files)); next.tombstones == w.tombstones && next.intent == w.intent
    decreases files
  {
    if files == 0 {
      ApplyOne(w, DropRoot(q));
    } else {
      PurgeLeavesTombstones(ApplyWrite(w, DropFile(q)), q, files - 1);
      assert ([DropFile(q)] + Purge(q, files - 1))[1..] == Purge(q, files - 1);
    }
  }

  /** The matters root on disk, under the vault creation lock. */
  class MattersRoot {
    var world: World

    constructor ()
      ensures world == Nothing
    {
      world := Nothing;
    }

    method Do(x: Write)
      modifies this
      ensures world == ApplyWrite(old(world), x) == ApplyAll(old(world), [x])
    {
      ApplyOne(world, x);
      world := ApplyWrite(world, x);
    }

    /** Removes the files of a quarantined vault one by one, then its root. */
    method PurgeVault(q: string, count: nat)
      modifies this
      ensures world == ApplyAll(old(world), Purge(q, count))
    {
      ghost var before := world;
      var files: nat := count;
      while files > 0
        invariant ApplyAll(world, Purge(q, files)) == ApplyAll(before, Purge(q, count))
      {
        ghost var here := world;
        assert ([DropFile(q)] + Purge(q, files - 1))[1..] == Purge(q, files - 1);
        Do(DropFile(q));
        files := files - 1;
      }
      Do(DropRoot(q));
    }

    method FinishClose(i: Intent)
      modifies this
      ensures world == ApplyAll(old(world), Finish(old(world), i))
    {
      ghost var before := world;
      ghost var stone := if i.record.tombstone in world.tombstones then [] else [AddTombstone(i.record.tombstone)];
      if i.record.tombstone !in world.tombstones {
        Do(AddTombstone(i.record.tombstone));
      }
      ghost var mid := world;
      Do(PutRecord(i.record));
      Do(DropIntent);
      ApplyConcat(mid, [PutRecord(i.record)], [DropIntent]);
      ApplyConcat(before, stone, [PutRecord(i.record)] + [DropIntent]);
      assert [PutRecord(i.record)] + [DropIntent] == [PutRecord(i.record), DropIntent];
    }

    method DestroyQuarantine(i: Intent, files: nat)
      modifies this
      ensures world == ApplyAll(old(world), Destroy(old(world), i, files))
    {
      ghost var before := world;
      Do(PutIntent(i.(detached := true)));
      ghost var w1 := world;
      PurgeVault(i.quarantineId, files);
      ghost var w2 := world;
      PurgeLeavesTombstones(w1, i.quarantineId, files);
      FinishClose(i);
      ApplyConcat(w1, Purge(i.quarantineId, files), Finish(w2, i));
      ApplyConcat(before, [PutIntent(i.(detached := true))], Purge(i.quarantineId, files) + Finish(w2, i));
    }

    method CloseNow(q: Request) returns (refusal: Option<Refusal>)
      modifies this
      ensures refusal == CloseActive(old(world), q).refusal
      ensures world == ApplyAll(old(world), CloseActive(old(world), q).writes)
    {
      if world.active.None? {
        return Some(UnknownMatter);
      }
      var v := world.active.value;
      if !q.lockFree {
        return Some(LiveRun);
      }
      var policy := Policy(v.retention, q.today);
      if policy.Some? {
        return policy;
      }
      if !q.backedUp {
        return Some(BackupFailed);
      }
      ghost var before := world;
      var i := Prepare(v, q);
      Do(PutIntent(i));
      ghost var w1 := world;
      Do(Detach(i.quarantineId));
      ghost var w2 := world;
      DestroyQuarantine(i, v.files);
      ApplyConcat(w1, [Detach(i.quarantineId)], Destroy(w2, i, v.files));
      ApplyConcat(before, [PutIntent(i)], [Detach(i.quarantineId)] + Destroy(w2, i, v.files));
      assert [PutIntent(i)] + ([Detach(i.quarantineId)] + Destroy(before, i, v.files))
          == [PutIntent(i), Detach(i.quarantineId)] + Destroy(before, i, v.files);
      return None;
    }

    /** One attempt. Every outcome and every write is the one `CloseMatter` gives. */
    method CloseAttempt(q: Request) returns (refusal: Option<Refusal>)
      modifies this
      ensures refusal == CloseMatter(old(world), q).refusal
      ensures world == ApplyAll(old(world), CloseMatter(old(world), q).writes)
    {
      if world.intent.Some? {
        var i := world.intent.value;
        if i.quarantineId in world.quarantine {
          var held := world.quarantine[i.quarantineId];
          if held.inode != i.inode {
            return Some(ReplacementQuarantine);
          }
          DestroyQuarantine(i, held.files);
          return None;
        }
        if i.detached {
          FinishClose(i);
          return None;
        }
        if world.active.None? {
          return Some(LostVault);
        }
        if world.active.value.inode != i.inode {
          return Some(ReplacementVault);
        }
      }
      if world.active.None? && world.record.Some? {
        return None;
      }
      refusal := CloseNow(q);
    }
  }
}
