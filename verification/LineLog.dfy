/** The byte-level append-only log: torn-tail repair, appends that may die after any byte, and the lines
    a log has committed (src/mootloop/persistence.py:22-85). */
module LineLog {
  import opened Wrappers

  type byte = x: int | 0 <= x < 256

  type Bytes = seq<byte>

  const NL: byte := 10

  predicate NoNewline(b: Bytes) {
    forall i :: 0 <= i < |b| ==> b[i] != NL
  }

  /** Empty, or ending in a newline. */
  predicate AtBoundary(b: Bytes) {
    b == [] || b[|b| - 1] == NL
  }

  /** The place of the first newline at or after `from`, or the length when there is none. */
  function Find(b: Bytes, from: nat): (i: nat)
    requires from <= |b|
    ensures from <= i <= |b| && (forall k :: from <= k < i ==> b[k] != NL) && (i < |b| ==> b[i] == NL)
    decreases |b| - from
  {
    if from == |b| || b[from] == NL then from else Find(b, from + 1)
  }

  /** The log without its torn tail: everything up to and including the last newline. */
  function Committed(b: Bytes): (c: Bytes)
    ensures c <= b && AtBoundary(c) && NoNewline(b[|c|..])
  {
    if AtBoundary(b) then b
    else
      var c := Committed(b[..|b| - 1]);
      assert b[|c|..] == b[..|b| - 1][|c|..] + [b[|b| - 1]];
      c
  }

  /** A boundary with no newline after it is where the committed part ends. */
  lemma {:induction false} CommittedIs(b: Bytes, n: nat)
    requires n <= |b| && AtBoundary(b[..n]) && NoNewline(b[n..])
    ensures Committed(b) == b[..n]
    decreases |b|
  {
    if n == |b| {
      assert b[..n] == b;
    } else {
      assert b[n..][|b| - 1 - n] == b[|b| - 1];
      var front := b[..|b| - 1];
      assert front[..n] == b[..n];
      assert forall i :: 0 <= i < |front[n..]| ==> front[n..][i] == b[n..][i];
      CommittedIs(front, n);
    }
  }

  /** The committed lines from a place on, each with its newline. */
  function LinesFrom(b: Bytes, from: nat): seq<Bytes>
    requires from <= |b|
    decreases |b| - from
  {
    var i := Find(b, from);
    if i == |b| then [] else [b[from..i + 1]] + LinesFrom(b, i + 1)
  }

  function Lines(b: Bytes): seq<Bytes> {
    LinesFrom(b, 0)
  }

  lemma FindIs(b: Bytes, from: nat, i: nat)
    requires from <= i <= |b| && (forall k :: from <= k < i ==> b[k] != NL) && (i < |b| ==> b[i] == NL)
    ensures Find(b, from) == i
  {
  }

  lemma FindLater(a: Bytes, b: Bytes, from: nat)
    requires from <= |b|
    ensures Find(a + b, |a| + from) == |a| + Find(b, from)
  {
    var i := Find(b, from);
    assert forall k :: |a| <= k < |a| + |b| ==> (a + b)[k] == b[k - |a|];
    FindIs(a + b, |a| + from, |a| + i);
  }

  lemma FindSooner(a: Bytes, b: Bytes, from: nat)
    requires from < |a| && AtBoundary(a)
    ensures Find(a, from) < |a| && Find(a + b, from) == Find(a, from)
  {
    var i := Find(a, from);
    assert a[|a| - 1] == NL;
    assert forall k :: 0 <= k < |a| ==> (a + b)[k] == a[k];
    FindIs(a + b, from, i);
  }

  lemma SliceLater(a: Bytes, b: Bytes, i: nat, j: nat)
    requires i <= j <= |b|
    ensures (a + b)[|a| + i..|a| + j] == b[i..j]
  {
    var x, y := (a + b)[|a| + i..|a| + j], b[i..j];
    assert |x| == |y| && forall k :: 0 <= k < |x| ==> x[k] == y[k];
  }

  lemma {:induction false} LinesLater(a: Bytes, b: Bytes, from: nat)
    requires from <= |b|
    ensures LinesFrom(a + b, |a| + from) == LinesFrom(b, from)
    decreases |b| - from
  {
    hide Find;
    FindLater(a, b, from);
    var i := Find(b, from);
    if i < |b| {
      LinesLater(a, b, i + 1);
      SliceLater(a, b, from, i + 1);
    }
  }

  lemma LinesStep(b: Bytes, from: nat)
    requires from <= |b|
    ensures var i := Find(b, from);
      LinesFrom(b, from) == if i == |b| then [] else [b[from..i + 1]] + LinesFrom(b, i + 1)
  {
    hide Find;
  }

  lemma {:induction false} LinesSooner(a: Bytes, b: Bytes, from: nat)
    requires AtBoundary(a) && from <= |a|
    ensures LinesFrom(a + b, from) == LinesFrom(a, from) + LinesFrom(a + b, |a|)
    decreases |a| - from
  {
    hide Find, LinesFrom, AtBoundary;
    LinesStep(a, from);
    if from < |a| {
      FindSooner(a, b, from);
      LinesStep(a + b, from);
      var i := Find(a, from);
      LinesSooner(a, b, i + 1);
      assert (a + b)[from..i + 1] == a[from..i + 1];
    }
  }

  lemma LinesConcat(a: Bytes, b: Bytes)
    requires AtBoundary(a)
    ensures Lines(a + b) == Lines(a) + Lines(b)
  {
    LinesSooner(a, b, 0);
    LinesLater(a, b, 0);
  }

  lemma NoLines(b: Bytes)
    requires NoNewline(b)
    ensures Lines(b) == []
  {
  }

  /** Only the committed part carries lines. */
  lemma LinesAreCommitted(b: Bytes)
    ensures Lines(b) == Lines(Committed(b))
  {
    var c := Committed(b);
    assert b == c + b[|c|..];
    LinesConcat(c, b[|c|..]);
    NoLines(b[|c|..]);
  }

  lemma OneLine(line: Bytes)
    requires NoNewline(line)
    ensures Lines(line + [NL]) == [line + [NL]]
  {
    FindIs(line + [NL], 0, |line|);
    assert LinesFrom(line + [NL], |line| + 1) == [];
    assert (line + [NL])[..|line| + 1] == line + [NL];
  }

  // --- appends that may die ------------------------------------------------------------------------------

  /** What is on disk when an append of `line` died after writing `reached` bytes; before its repair took
      effect when `repaired` is false. */
  function AfterAppend(b: Bytes, line: Bytes, repaired: bool, reached: nat): Bytes
    requires reached <= |line| + 1
  {
    if !repaired then b else Committed(b) + (line + [NL])[..reached]
  }

  /** An append that dies after any byte leaves the committed lines as they were, or extended by exactly
      that one line; and what was committed stays a prefix of the file. */
  lemma AppendIsAtomic(b: Bytes, line: Bytes, repaired: bool, reached: nat)
    requires NoNewline(line) && reached <= |line| + 1
    ensures var after := AfterAppend(b, line, repaired, reached);
      && Lines(after) == Lines(b) + (if repaired && reached == |line| + 1 then [line + [NL]] else [])
      && Committed(b) <= Committed(after)
  {
    if repaired {
      var c := Committed(b);
      var written := (line + [NL])[..reached];
      LinesConcat(c, written);
      LinesAreCommitted(b);
      var after := c + written;
      if reached == |line| + 1 {
        assert written == line + [NL];
        OneLine(line);
        assert after[|after| - 1] == NL;
        CommittedIs(after, |after|);
      } else {
        assert written == line[..reached];
        NoLines(written);
        assert after[..|c|] == c && after[|c|..] == written;
        CommittedIs(after, |c|);
      }
    }
  }

  /** A file of a log, open for writing under its lock. */
  class LogFile {
    var bytes: Bytes

    constructor (bytes: Bytes)
      ensures this.bytes == bytes
    {
      this.bytes := bytes;
    }

    /** Scans backwards in chunks for the last newline and truncates just after it. The result does not
        depend on the chunk size. */
    method RepairTornTail(chunkSize: nat) returns (repaired: bool)
      requires chunkSize >= 1
      modifies this
      ensures bytes == Committed(old(bytes))
      ensures repaired <==> bytes != old(bytes)
    {
      var end := |bytes|;
      if end == 0 || bytes[end - 1] == NL {
        return false;
      }
      var position: nat, truncateAt: nat := end, 0;
      var found := false;
      while position > 0 && !found
        invariant position <= end && bytes == old(bytes)
        invariant !found ==> truncateAt == 0 && NoNewline(bytes[position..])
        invariant found ==> 0 < truncateAt <= end && bytes[truncateAt - 1] == NL && NoNewline(bytes[truncateAt..])
        decreases position, !found
      {
        var size := if position < chunkSize then position else chunkSize;
        var from := position - size;
        var newline := LastNewline(bytes[from..position]);
        if newline.Some? {
          truncateAt := from + newline.value + 1;
          found := true;
          assert bytes[truncateAt..] == bytes[from..position][newline.value + 1..] + bytes[position..];
        } else {
          assert bytes[from..] == bytes[from..position] + bytes[position..];
        }
        position := from;
      }
      assert bytes[0..] == bytes;
      CommittedIs(bytes, truncateAt);
      bytes := bytes[..truncateAt];
      return true;
    }

    /** Repairs the tail, then writes one line; dies after `reached` bytes of it. */
    method AppendLine(line: Bytes, chunkSize: nat, reached: nat)
      requires NoNewline(line) && chunkSize >= 1 && reached <= |line| + 1
      modifies this
      ensures bytes == AfterAppend(old(bytes), line, true, reached)
    {
      var _ := RepairTornTail(chunkSize);
      bytes := bytes + (line + [NL])[..reached];
    }
  }

  /** `rfind` of a newline in one chunk. */
  method LastNewline(chunk: Bytes) returns (at: Option<nat>)
    ensures at.None? ==> NoNewline(chunk)
    ensures at.Some? ==> at.value < |chunk| && chunk[at.value] == NL && NoNewline(chunk[at.value + 1..])
  {
    var i: nat := |chunk|;
    while i > 0
      invariant i <= |chunk| && NoNewline(chunk[i..])
    {
      i := i - 1;
      if chunk[i] == NL {
        return Some(i);
      }
      assert chunk[i..] == [chunk[i]] + chunk[i + 1..];
    }
    assert chunk[0..] == chunk;
    return None;
  }

  // --- records ----------------------------------------------------------------------------------------

  /** What the reader yields of some lines: those that decode and are not blank, up to the first that does not
      decode, which raises. */
  function Yielded<T>(lines: seq<Bytes>, decode: Bytes -> Option<T>, blank: T -> bool): (seq<T>, bool) {
    if lines == [] then ([], false)
    else
      match decode(lines[0])
      case None => ([], true)
      case Some(text) =>
        var (rest, raised) := Yielded(lines[1..], decode, blank);
        ((if blank(text) then [] else [text]) + rest, raised)
  }

  lemma YieldedStep<T>(b: Bytes, from: nat, decode: Bytes -> Option<T>, blank: T -> bool)
    requires from < |b| && Find(b, from) < |b|
    ensures var line := b[from..Find(b, from) + 1];
      var (here, raised) := Yielded(LinesFrom(b, from), decode, blank);
      if decode(line).None? then here == [] && raised
      else
        var (later, after) := Yielded(LinesFrom(b, Find(b, from) + 1), decode, blank);
        here == (if blank(decode(line).value) then [] else [decode(line).value]) + later && raised == after
  {
    hide Find;
    assert LinesFrom(b, from)[1..] == LinesFrom(b, Find(b, from) + 1);
  }

  /** The store readers' loop: the complete lines, decoded, without the blank ones, ignoring a torn tail. */
  method CompleteLines<T>(b: Bytes, decode: Bytes -> Option<T>, blank: T -> bool)
      returns (lines: seq<T>, raised: bool)
    ensures (lines, raised) == Yielded(Lines(b), decode, blank)
  {
    hide Find, LinesFrom, Yielded;
    lines, raised := [], false;
    var pos: nat := 0;
    NothingYielded(b, decode, blank);
    while pos < |b|
      invariant pos <= |b| && !raised
      invariant var (all, error) := Yielded(LinesFrom(b, 0), decode, blank);
        var (later, after) := Yielded(LinesFrom(b, pos), decode, blank);
        all == lines + later && error == after
    {
      var end := Find(b, pos);
      if end == |b| {
        NoLineAt(b, pos, decode, blank);
        assert lines + [] == lines;
        return;
      }
      YieldedStep(b, pos, decode, blank);
      var text := decode(b[pos..end + 1]);
      if text.None? {
        assert lines + [] == lines;
        return lines, true;
      }
      var here := if blank(text.value) then [] else [text.value];
      ghost var later := Yielded(LinesFrom(b, end + 1), decode, blank).0;
      assert lines + (here + later) == (lines + here) + later;
      lines := lines + here;
      pos := end + 1;
    }
    assert lines + [] == lines;
  }

  lemma NoLineAt<T>(b: Bytes, from: nat, decode: Bytes -> Option<T>, blank: T -> bool)
    requires from <= |b| && Find(b, from) == |b|
    ensures Yielded(LinesFrom(b, from), decode, blank) == ([], false)
  {
  }

  lemma NothingYielded<T>(b: Bytes, decode: Bytes -> Option<T>, blank: T -> bool)
    ensures Yielded(LinesFrom(b, |b|), decode, blank) == ([], false)
  {
  }
}
