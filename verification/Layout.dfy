/** The deterministic slot layout: logical turn slots to stable sequence numbers, and sequence
    numbers to turn ids (src/mootloop/stages.py). */
module Layout {
  import Format

  /** One logical turn of one request. Every index counts from 1. */
  datatype Slot =
    | Draft(r: nat)
    | Critique(r: nat)
    | Oc(k: nat)
    | Bolster(k: nat)
    | Judge(j: nat)
    | RubricLoop(r: nat)
    | RubricFinal(m: nat)
    | Restructure(k: nat)
    | Juror(j: nat)

  /** The caps and panel sizes that fix the size of every request's block. */
  datatype Sizes = Sizes(
    ap: nat, oc: nat, bolster: nat, judges: nat, rubricPanel: nat, restructure: nat, jurors: nat)
  {
    function Block(): nat {
      2 * ap + oc + bolster + judges + ap + rubricPanel + restructure + jurors
    }

    function RubricBase(): nat {
      2 * ap + oc + bolster + judges
    }

    predicate Has(s: Slot) {
      match s
      case Draft(r) => 1 <= r <= ap
      case Critique(r) => 1 <= r <= ap
      case Oc(k) => 1 <= k <= oc
      case Bolster(k) => 1 <= k <= bolster
      case Judge(j) => 1 <= j <= judges
      case RubricLoop(r) => 1 <= r <= ap
      case RubricFinal(m) => 1 <= m <= rubricPanel
      case Restructure(k) => 1 <= k <= restructure
      case Juror(j) => 1 <= j <= jurors
    }

    /** A slot's place inside its request's block. */
    function Offset(s: Slot): nat
      requires Has(s)
    {
      match s
      case Draft(r) => 2 * (r - 1)
      case Critique(r) => 2 * (r - 1) + 1
      case Oc(k) => 2 * ap + (k - 1)
      case Bolster(k) => 2 * ap + oc + (k - 1)
      case Judge(j) => 2 * ap + oc + bolster + (j - 1)
      case RubricLoop(r) => RubricBase() + (r - 1)
      case RubricFinal(m) => RubricBase() + ap + (m - 1)
      case Restructure(k) => RubricBase() + ap + rubricPanel + (k - 1)
      case Juror(j) => RubricBase() + ap + rubricPanel + restructure + (j - 1)
    }

    /** The slot that owns a place of the block. */
    function SlotAt(o: nat): Slot
      requires o < Block()
    {
      if o < 2 * ap then (if o % 2 == 0 then Draft(o / 2 + 1) else Critique(o / 2 + 1))
      else if o < 2 * ap + oc then Oc(o - 2 * ap + 1)
      else if o < 2 * ap + oc + bolster then Bolster(o - 2 * ap - oc + 1)
      else if o < RubricBase() then Judge(o - 2 * ap - oc - bolster + 1)
      else if o < RubricBase() + ap then RubricLoop(o - RubricBase() + 1)
      else if o < RubricBase() + ap + rubricPanel then RubricFinal(o - RubricBase() - ap + 1)
      else if o < RubricBase() + ap + rubricPanel + restructure then
        Restructure(o - RubricBase() - ap - rubricPanel + 1)
      else Juror(o - RubricBase() - ap - rubricPanel - restructure + 1)
    }

    /** All slots of one request. */
    function Slots(): set<Slot> {
      set o: nat | o < Block() :: SlotAt(o)
    }
  }

  /** The sequence number of a slot of the request at `index`. */
  function Seq(z: Sizes, index: nat, s: Slot): nat
    requires z.Has(s)
  {
    index * z.Block() + z.Offset(s)
  }

  function TurnId(runId: string, seqNo: nat): string {
    runId + "-t" + Format.Pad4(seqNo)
  }

  function SlotTurnId(runId: string, z: Sizes, index: nat, s: Slot): string
    requires z.Has(s)
  {
    TurnId(runId, Seq(z, index, s))
  }

  lemma OffsetRoundTrip(z: Sizes, s: Slot)
    requires z.Has(s)
    ensures z.Offset(s) < z.Block() && z.SlotAt(z.Offset(s)) == s
  {
    var o := z.Offset(s);
    match s
    case Draft(r) => assert o < 2 * z.ap && o % 2 == 0 && o / 2 == r - 1;
    case Critique(r) => assert o < 2 * z.ap && o % 2 == 1 && o / 2 == r - 1;
    case _ =>
  }

  lemma SlotRoundTrip(z: Sizes, o: nat)
    requires o < z.Block()
    ensures z.Has(z.SlotAt(o)) && z.Offset(z.SlotAt(o)) == o
  {
    if o < 2 * z.ap {
      assert o == 2 * (o / 2) + o % 2;
    }
  }

  /** The slots of one request tile its block: each slot has its own place, and each place a slot. */
  lemma SlotsTileBlock(z: Sizes)
    ensures forall s :: z.Has(s) ==> z.Offset(s) < z.Block() && z.SlotAt(z.Offset(s)) == s
    ensures forall o: nat :: o < z.Block() ==> z.Has(z.SlotAt(o)) && z.Offset(z.SlotAt(o)) == o
  {
    forall s | z.Has(s)
      ensures z.Offset(s) < z.Block() && z.SlotAt(z.Offset(s)) == s
    {
      OffsetRoundTrip(z, s);
    }
    forall o: nat | o < z.Block()
      ensures z.Has(z.SlotAt(o)) && z.Offset(z.SlotAt(o)) == o
    {
      SlotRoundTrip(z, o);
    }
  }

  lemma SlotsAreHas(z: Sizes)
    ensures forall s :: s in z.Slots() <==> z.Has(s)
  {
    SlotsTileBlock(z);
    forall s | z.Has(s)
      ensures s in z.Slots()
    {
      assert z.SlotAt(z.Offset(s)) == s;
    }
  }

  lemma MulStep(b: nat, i: nat, i': nat)
    requires i < i'
    ensures i * b + b <= i' * b
  {
    if i + 1 == i' {
      assert i' * b == i * b + b;
    } else {
      MulStep(b, i, i' - 1);
      assert i' * b == (i' - 1) * b + b;
    }
  }

  /** Every slot of the first `requests` requests falls inside `0 .. requests * block`. */
  lemma SlotsInRun(z: Sizes, requests: nat, i: nat, s: Slot)
    requires i < requests && z.Has(s)
    ensures Seq(z, i, s) < requests * z.Block()
  {
    SlotsTileBlock(z);
    MulStep(z.Block(), i, requests);
  }

  /** No two slots, of the same or of different requests, share a sequence number. */
  lemma SeqInjective(z: Sizes, i: nat, s: Slot, i': nat, s': Slot)
    requires z.Has(s) && z.Has(s') && Seq(z, i, s) == Seq(z, i', s')
    ensures i == i' && s == s'
  {
    SlotsTileBlock(z);
    if i < i' {
      MulStep(z.Block(), i, i');
    } else if i' < i {
      MulStep(z.Block(), i', i);
    }
    assert z.SlotAt(z.Offset(s)) == s && z.SlotAt(z.Offset(s')) == s';
  }

  /** Every sequence number below `requests * block` belongs to some slot of some request. */
  lemma {:induction false} SlotsCoverRun(z: Sizes, requests: nat, n: nat) returns (i: nat, s: Slot)
    requires n < requests * z.Block()
    ensures i < requests && z.Has(s) && Seq(z, i, s) == n
  {
    var last := requests - 1;
    assert requests * z.Block() == last * z.Block() + z.Block();
    if n < last * z.Block() {
      i, s := SlotsCoverRun(z, last, n);
    } else {
      SlotsTileBlock(z);
      i, s := last, z.SlotAt(n - last * z.Block());
    }
  }

  /** Turn ids are distinct over every slot of every request of a run. */
  lemma TurnIdsDistinct(runId: string, z: Sizes, i: nat, s: Slot, i': nat, s': Slot)
    requires z.Has(s) && z.Has(s')
    requires SlotTurnId(runId, z, i, s) == SlotTurnId(runId, z, i', s')
    ensures i == i' && s == s'
  {
    var a, b := Seq(z, i, s), Seq(z, i', s');
    var prefix := runId + "-t";
    assert Format.Pad4(a) == TurnId(runId, a)[|prefix|..];
    assert Format.Pad4(b) == TurnId(runId, b)[|prefix|..];
    Format.Pad4Injective(a, b);
    SeqInjective(z, i, s, i', s');
  }
}
