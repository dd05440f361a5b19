/** Reading a journal: the cached incremental reader and the non-truncating tail reader
    (src/mootloop/journal.py:126-246). */
module JournalReader {
  import opened Wrappers
  import opened LineLog

  // --- the full parse ------------------------------------------------------------------------------------

  predicate IsSpace(c: byte) {
    c == 32 || 9 <= c <= 13
  }

  predicate Blank(line: Bytes) {
    forall i :: 0 <= i < |line| ==> IsSpace(line[i])
  }

  function NonBlank(lines: seq<Bytes>): seq<Bytes> {
    if lines == [] then [] else (if Blank(lines[0]) then [] else [lines[0]]) + NonBlank(lines[1..])
  }

  function RecordOf(line: Bytes): seq<Bytes> {
    if Blank(line) then [] else [line]
  }

  function StripLeft(b: Bytes): Bytes {
    if b != [] && IsSpace(b[0]) then StripLeft(b[1..]) else b
  }

  function StripRight(b: Bytes): Bytes {
    if b != [] && IsSpace(b[|b| - 1]) then StripRight(b[..|b| - 1]) else b
  }

  function Strip(b: Bytes): Bytes {
    StripRight(StripLeft(b))
  }

  /** A parser of one stripped line; `None` when it refuses the line. */
  type Parser<E> = Bytes -> Option<E>

  function ParseAll<E>(parse: Parser<E>, records: seq<Bytes>): Option<seq<E>> {
    if records == [] then Some([])
    else
      var rest := ParseAll(parse, records[..|records| - 1]);
      var last := parse(Strip(records[|records| - 1]));
      if rest.Some? && last.Some? then Some(rest.value + [last.value]) else None
  }

  function Records(b: Bytes): seq<Bytes> {
    NonBlank(Lines(b))
  }

  /** The parse of a file's complete lines. */
  function FullParse<E>(parse: Parser<E>, b: Bytes): Option<seq<E>> {
    ParseAll(parse, Records(b))
  }

  function Both<E>(a: Option<seq<E>>, b: Option<seq<E>>): Option<seq<E>> {
    if a.Some? && b.Some? then Some(a.value + b.value) else None
  }

  lemma {:induction false} ParseAllConcat<E>(parse: Parser<E>, a: seq<Bytes>, b: seq<Bytes>)
    ensures ParseAll(parse, a + b) == Both(ParseAll(parse, a), ParseAll(parse, b))
  {
    if b == [] {
      assert a + b == a;
      if ParseAll(parse, a).Some? {
        assert ParseAll(parse, a).value + [] == ParseAll(parse, a).value;
      }
    } else {
      var front := b[..|b| - 1];
      assert (a + b)[..|a + b| - 1] == a + front;
      ParseAllConcat(parse, a, front);
      var x, y, z := ParseAll(parse, a), ParseAll(parse, front), parse(Strip(b[|b| - 1]));
      if x.Some? && y.Some? && z.Some? {
        assert (x.value + y.value) + [z.value] == x.value + (y.value + [z.value]);
      }
    }
  }

  lemma {:induction false} NonBlankConcat(a: seq<Bytes>, b: seq<Bytes>)
    ensures NonBlank(a + b) == NonBlank(a) + NonBlank(b)
  {
    if a == [] {
      assert a + b == b;
    } else {
      assert (a + b)[1..] == a[1..] + b;
      NonBlankConcat(a[1..], b);
    }
  }

  /** Parsing splits at any line boundary. */
  lemma FullParseConcat<E>(parse: Parser<E>, a: Bytes, b: Bytes)
    requires AtBoundary(a)
    ensures FullParse(parse, a + b) == Both(FullParse(parse, a), FullParse(parse, b))
  {
    LinesConcat(a, b);
    NonBlankConcat(Lines(a), Lines(b));
    ParseAllConcat(parse, Records(a), Records(b));
  }

  lemma CommittedParse<E>(parse: Parser<E>, b: Bytes)
    ensures FullParse(parse, Committed(b)) == FullParse(parse, b)
  {
    LinesAreCommitted(b);
  }

  lemma BoundaryConcat(a: Bytes, b: Bytes)
    requires AtBoundary(a) && AtBoundary(b)
    ensures AtBoundary(a + b)
  {
  }

  lemma LineRecord(l: Bytes)
    requires NoNewline(l)
    ensures Records(l + [NL]) == RecordOf(l + [NL])
  {
    OneLine(l);
    var one: seq<Bytes> := [l + [NL]];
    assert Lines(l + [NL]) == one;
    assert NonBlank(one[1..]) == [];
  }

  lemma LineParse<E>(parse: Parser<E>, read: Bytes, l: Bytes)
    requires AtBoundary(read) && NoNewline(l)
    ensures FullParse(parse, read + (l + [NL]))
         == Both(FullParse(parse, read), ParseAll(parse, RecordOf(l + [NL])))
  {
    FullParseConcat(parse, read, l + [NL]);
    LineRecord(l);
  }

  lemma LineSlices(b: Bytes, pos: nat, end: nat)
    requires pos <= end < |b| && end == Find(b, pos)
    ensures b[pos..end + 1] == b[pos..end] + [NL] && NoNewline(b[pos..end])
    ensures b[..end + 1] == b[..pos] + b[pos..end + 1]
  {
  }

  lemma ParseStep<E>(parse: Parser<E>, b: Bytes, pos: nat, end: nat)
    requires pos <= end < |b| && end == Find(b, pos) && AtBoundary(b[..pos])
    ensures FullParse(parse, b[..end + 1])
         == Both(FullParse(parse, b[..pos]), ParseAll(parse, RecordOf(b[pos..end + 1])))
  {
    LineSlices(b, pos, end);
    LineParse(parse, b[..pos], b[pos..end]);
  }

  lemma {:induction false} ParseAllPrefixFails<E>(parse: Parser<E>, b: Bytes, n: nat)
    requires n <= |b| && AtBoundary(b[..n]) && FullParse(parse, b[..n]).None?
    ensures FullParse(parse, b).None?
  {
    assert b == b[..n] + b[n..];
    FullParseConcat(parse, b[..n], b[n..]);
  }

  lemma OneRecord<E>(parse: Parser<E>, line: Bytes)
    ensures ParseAll(parse, RecordOf(line))
         == if Blank(line) then Some([])
            else if parse(Strip(line)).Some? then Some([parse(Strip(line)).value]) else None
  {
    var one: seq<Bytes> := [line];
    assert one[..0] == [];
    var none: seq<E> := [];
    assert ParseAll(parse, one[..0]) == Some(none);
    if parse(Strip(line)).Some? {
      assert none + [parse(Strip(line)).value] == [parse(Strip(line)).value];
    }
  }

  /** The parsing loop of both readers: complete lines only; `consumed` stops after the last one. */
  method ParseLoop<E>(parse: Parser<E>, chunk: Bytes) returns (events: Option<seq<E>>, consumed: nat)
    ensures events == FullParse(parse, chunk)
    ensures events.Some? ==> consumed == |Committed(chunk)|
  {
    hide FullParse, ParseAll, Find, RecordOf;
    EmptyParse(parse, chunk);
    var parsed: seq<E> := [];
    var pos: nat := 0;
    while pos < |chunk|
      invariant pos <= |chunk| && AtBoundary(chunk[..pos])
      invariant FullParse(parse, chunk[..pos]) == Some(parsed)
    {
      var newline := Find(chunk, pos);
      if newline == |chunk| {
        break;
      }
      var line := chunk[pos..newline + 1];
      ParseStep(parse, chunk, pos, newline);
      OneRecord(parse, line);
      if !Blank(line) {
        var event := parse(Strip(line));
        if event.None? {
          ParseAllPrefixFails(parse, chunk, newline + 1);
          return None, pos;
        }
        parsed := parsed + [event.value];
      } else {
        assert parsed + [] == parsed;
      }
      pos := newline + 1;
    }
    Consumed(parse, chunk, pos);
    return Some(parsed), pos;
  }

  lemma Consumed<E>(parse: Parser<E>, chunk: Bytes, pos: nat)
    requires pos <= |chunk| && AtBoundary(chunk[..pos]) && Find(chunk, pos) == |chunk|
    ensures Committed(chunk) == chunk[..pos] && FullParse(parse, chunk) == FullParse(parse, chunk[..pos])
  {
    CommittedIs(chunk, pos);
    CommittedParse(parse, chunk);
  }

  // --- the incremental reader ------------------------------------------------------------------------------

  /** A digest of bytes. It stands for an injective hash. */
  datatype Digest = Digest(preimage: Bytes)

  /** The parsed, newline-terminated prefix of one journal file. */
  datatype Prefix<E> = Prefix(offset: nat, events: seq<E>, digest: Digest)

  /** What is cached was parsed from the bytes its digest stands for. */
  ghost predicate Sound<E>(parse: Parser<E>, p: Prefix<E>) {
    && |p.digest.preimage| == p.offset && AtBoundary(p.digest.preimage)
    && FullParse(parse, p.digest.preimage) == Some(p.events)
  }

  predicate PrefixIntact<E>(snapshot: Bytes, p: Prefix<E>) {
    p.offset == 0 || (|snapshot| >= p.offset && Digest(snapshot[..p.offset]) == p.digest)
  }

  const MAX_CACHED: nat := 4

  /** Cached prefixes by journal path, least recently stored first. */
  type Cache<E> = seq<(string, Prefix<E>)>

  function Get<E>(cache: Cache<E>, key: string): Option<Prefix<E>> {
    if cache == [] then None
    else if cache[0].0 == key then Some(cache[0].1)
    else Get(cache[1..], key)
  }

  function Remove<E>(cache: Cache<E>, key: string): Cache<E> {
    if cache == [] then []
    else if cache[0].0 == key then Remove(cache[1..], key)
    else [cache[0]] + Remove(cache[1..], key)
  }

  function Store<E>(cache: Cache<E>, key: string, p: Prefix<E>): Cache<E> {
    var stored := Remove(cache, key) + [(key, p)];
    if |stored| > MAX_CACHED then stored[|stored| - MAX_CACHED..] else stored
  }

  ghost predicate AllSound<E>(parse: Parser<E>, cache: Cache<E>) {
    forall i :: 0 <= i < |cache| ==> Sound(parse, cache[i].1)
  }

  lemma {:induction false} CacheSound<E>(parse: Parser<E>, cache: Cache<E>, key: string)
    requires AllSound(parse, cache)
    ensures Get(cache, key).Some? ==> Sound(parse, Get(cache, key).value)
    ensures AllSound(parse, Remove(cache, key))
  {
    if cache != [] {
      CacheSound(parse, cache[1..], key);
    }
  }

  datatype ReadError = CorruptRecord

  /** One call, against whatever the file holds at that moment. */
  datatype Read = Read(key: string, file: Option<Bytes>)

  /** The reader without a cache. */
  function FullRead<E>(parse: Parser<E>, file: Option<Bytes>): Result<seq<E>, ReadError> {
    if file.None? then Success([])
    else
      match FullParse(parse, file.value)
      case Some(events) => Success(events)
      case None => Failure(CorruptRecord)
  }

  function Usable<E>(cache: Cache<E>, key: string, snapshot: Bytes): Option<Prefix<E>> {
    var cached := Get(cache, key);
    if cached.Some? && PrefixIntact(snapshot, cached.value) then cached else None
  }

  /** The cached reader: its answer and its next cache. */
  function CachedRead<E>(parse: Parser<E>, cache: Cache<E>, call: Read): (Result<seq<E>, ReadError>, Cache<E>) {
    if call.file.None? then (Success([]), Remove(cache, call.key))
    else
      var snapshot := call.file.value;
      var cached := Usable(cache, call.key, snapshot);
      var start := if cached.Some? && cached.value.offset <= |snapshot| then cached.value.offset else 0;
      var chunk := snapshot[start..];
      var more := FullParse(parse, chunk);
      if more.None? then (Failure(CorruptRecord), cache)
      else
        var events := (if cached.Some? then cached.value.events else []) + more.value;
        var offset := start + |Committed(chunk)|;
        (Success(events), Store(cache, call.key, Prefix(offset, events, Digest(snapshot[..offset]))))
  }

  /** A usable prefix is the file's own beginning. */
  lemma UsableIsPrefix<E>(parse: Parser<E>, cache: Cache<E>, key: string, snapshot: Bytes)
    requires AllSound(parse, cache)
    ensures var c := Usable(cache, key, snapshot);
      c.Some? ==>
        && c.value.offset <= |snapshot| && AtBoundary(snapshot[..c.value.offset])
        && FullParse(parse, snapshot[..c.value.offset]) == Some(c.value.events)
  {
    CacheSound(parse, cache, key);
    var c := Usable(cache, key, snapshot);
    if c.Some? {
      assert snapshot[..c.value.offset] == c.value.digest.preimage;
    }
  }

  lemma StoredIsSound<E>(parse: Parser<E>, snapshot: Bytes, start: nat, before: seq<E>, more: seq<E>)
    requires start <= |snapshot| && AtBoundary(snapshot[..start])
    requires FullParse(parse, snapshot[..start]) == Some(before)
    requires FullParse(parse, snapshot[start..]) == Some(more)
    ensures var offset := start + |Committed(snapshot[start..])|;
      Sound(parse, Prefix(offset, before + more, Digest(snapshot[..offset])))
  {
    var chunk := snapshot[start..];
    var c := Committed(chunk);
    var offset := start + |c|;
    assert chunk[..|c|] == c;
    assert snapshot[..offset] == snapshot[..start] + c;
    CommittedParse(parse, chunk);
    FullParseConcat(parse, snapshot[..start], c);
    BoundaryConcat(snapshot[..start], c);
  }

  lemma {:induction false} StoreSound<E>(parse: Parser<E>, cache: Cache<E>, key: string, p: Prefix<E>)
    requires AllSound(parse, cache) && Sound(parse, p)
    ensures AllSound(parse, Store(cache, key, p))
  {
    CacheSound(parse, cache, key);
  }

  /** Starting from a boundary whose parse is known gives the same answer as starting from zero. */
  lemma ResumedParse<E>(parse: Parser<E>, snapshot: Bytes, start: nat, before: seq<E>)
    requires start <= |snapshot| && AtBoundary(snapshot[..start])
    requires FullParse(parse, snapshot[..start]) == Some(before)
    ensures FullParse(parse, snapshot) == Both(Some(before), FullParse(parse, snapshot[start..]))
  {
    assert snapshot == snapshot[..start] + snapshot[start..];
    FullParseConcat(parse, snapshot[..start], snapshot[start..]);
  }

  lemma EmptyParse<E>(parse: Parser<E>, snapshot: Bytes)
    ensures AtBoundary(snapshot[..0]) && FullParse(parse, snapshot[..0]) == Some([])
  {
    assert snapshot[..0] == [];
  }

  /** From any sound cache and any file contents, the cached reader answers exactly what a full parse
      answers, failing exactly when that fails, and leaves a sound cache. */
  lemma CachedReadIsFull<E>(parse: Parser<E>, cache: Cache<E>, call: Read)
    requires AllSound(parse, cache)
    ensures CachedRead(parse, cache, call).0 == FullRead(parse, call.file)
    ensures AllSound(parse, CachedRead(parse, cache, call).1)
  {
    hide FullParse, Committed;
    CacheSound(parse, cache, call.key);
    if call.file.Some? {
      var snapshot := call.file.value;
      UsableIsPrefix(parse, cache, call.key, snapshot);
      EmptyParse(parse, snapshot);
      var cached := Usable(cache, call.key, snapshot);
      var start := if cached.Some? then cached.value.offset else 0;
      var before := if cached.Some? then cached.value.events else [];
      ResumedParse(parse, snapshot, start, before);
      var more := FullParse(parse, snapshot[start..]);
      if more.Some? {
        StoredIsSound(parse, snapshot, start, before, more.value);
        var offset := start + |Committed(snapshot[start..])|;
        StoreSound(parse, cache, call.key, Prefix(offset, before + more.value, Digest(snapshot[..offset])));
      }
    }
  }

  function Answers<E>(parse: Parser<E>, cache: Cache<E>, calls: seq<Read>): seq<Result<seq<E>, ReadError>>
    decreases |calls|
  {
    if calls == [] then []
    else
      var (answer, next) := CachedRead(parse, cache, calls[0]);
      [answer] + Answers(parse, next, calls[1..])
  }

  /** Over any history of file contents and any interleaving of calls, evictions included, every answer is
      the full parse of the file as it is at that call. */
  lemma {:induction false} EveryReadIsFull<E>(parse: Parser<E>, cache: Cache<E>, calls: seq<Read>)
    requires AllSound(parse, cache)
    ensures |Answers(parse, cache, calls)| == |calls|
    ensures forall i :: 0 <= i < |calls| ==> Answers(parse, cache, calls)[i] == FullRead(parse, calls[i].file)
    decreases |calls|
  {
    if calls != [] {
      CachedReadIsFull(parse, cache, calls[0]);
      EveryReadIsFull(parse, CachedRead(parse, cache, calls[0]).1, calls[1..]);
    }
  }

  /** The module-level cache and the reader that keeps it. */
  class Reader<E> {
    const parse: Parser<E>
    var cache: Cache<E>

    constructor (parse: Parser<E>)
      ensures this.parse == parse && cache == [] && AllSound(parse, cache)
    {
      this.parse := parse;
      cache := [];
    }

    method ReadEvents(key: string, file: Option<Bytes>) returns (r: Result<seq<E>, ReadError>)
      requires AllSound(parse, cache)
      modifies this
      ensures AllSound(parse, cache)
      ensures r == FullRead(parse, file)
      ensures cache == CachedRead(parse, old(cache), Read(key, file)).1
    {
      hide FullParse, Committed;
      CachedReadIsFull(parse, cache, Read(key, file));
      if file.None? {
        cache := Remove(cache, key);
        return Success([]);
      }
      var snapshot := file.value;
      UsableIsPrefix(parse, cache, key, snapshot);
      var cached := Get(cache, key);
      if cached.Some? && !PrefixIntact(snapshot, cached.value) {
        cached := None;
      }
      var start := if cached.Some? then cached.value.offset else 0;
      var more, consumed := ParseLoop(parse, snapshot[start..]);
      if more.None? {
        return Failure(CorruptRecord);
      }
      var events := (if cached.Some? then cached.value.events else []) + more.value;
      var offset := start + consumed;
      cache := Store(cache, key, Prefix(offset, events, Digest(snapshot[..offset])));
      return Success(events);
    }
  }

  // --- the tail reader ---------------------------------------------------------------------------------------

  /** Events appended since an offset, and the offset after them; `None` on a malformed complete line. */
  function Tail<E>(parse: Parser<E>, file: Option<Bytes>, after: nat): Option<(seq<E>, nat)> {
    if file.None? then Some(([], after))
    else
      var chunk := if after <= |file.value| then file.value[after..] else [];
      var events := FullParse(parse, chunk);
      if events.None? then None else Some((events.value, after + |Committed(chunk)|))
  }

  method TailEvents<E>(parse: Parser<E>, file: Option<Bytes>, after: nat) returns (r: Option<(seq<E>, nat)>)
    ensures r == Tail(parse, file, after)
  {
    if file.None? {
      return Some(([], after));
    }
    var chunk := if after <= |file.value| then file.value[after..] else [];
    var events, consumed := ParseLoop(parse, chunk);
    if events.None? {
      return None;
    }
    return Some((events.value, after + consumed));
  }

  /** What can happen to a log that is being followed: an append that dies anywhere, or a poll. */
  datatype LogStep = Append(line: Bytes, repaired: bool, reached: nat) | Poll

  datatype Follower<E> = Follower(file: Bytes, offset: nat, seen: seq<E>, lastPoll: bool)

  /** A poll that raises leaves the follower where it was. */
  function Follow<E>(parse: Parser<E>, f: Follower<E>, step: LogStep): Follower<E> {
    match step
    case Append(line, repaired, reached) =>
      f.(file := AfterAppend(f.file, line, repaired, if reached <= |line| + 1 then reached else |line| + 1),
         lastPoll := false)
    case Poll =>
      var got := Tail(parse, Some(f.file), f.offset);
      if got.None? then f.(lastPoll := false)
      else f.(offset := got.value.1, seen := f.seen + got.value.0, lastPoll := true)
  }

  function FollowAll<E>(parse: Parser<E>, steps: seq<LogStep>): Follower<E> {
    if steps == [] then Follower([], 0, [], false)
    else Follow(parse, FollowAll(parse, steps[..|steps| - 1]), steps[|steps| - 1])
  }

  /** What a follower has seen is the parse of exactly the committed bytes before its offset. */
  ghost predicate Faithful<E>(parse: Parser<E>, f: Follower<E>) {
    && f.offset <= |Committed(f.file)| && AtBoundary(f.file[..f.offset])
    && FullParse(parse, f.file[..f.offset]) == Some(f.seen)
    && (f.lastPoll ==> FullParse(parse, f.file) == Some(f.seen))
  }

  lemma AppendKeepsFaith<E>(parse: Parser<E>, f: Follower<E>, line: Bytes, repaired: bool, reached: nat)
    requires Faithful(parse, f) && NoNewline(line) && reached <= |line| + 1
    ensures Faithful(parse, f.(file := AfterAppend(f.file, line, repaired, reached), lastPoll := false))
  {
    AppendIsAtomic(f.file, line, repaired, reached);
    var after := AfterAppend(f.file, line, repaired, reached);
    var c := Committed(f.file);
    assert f.file[..f.offset] == c[..f.offset];
    assert c <= Committed(after) <= after;
    assert after[..f.offset] == c[..f.offset];
  }

  lemma PollKeepsFaith<E>(parse: Parser<E>, f: Follower<E>)
    requires Faithful(parse, f)
    ensures Faithful(parse, Follow(parse, f, Poll))
    ensures !Follow(parse, f, Poll).lastPoll ==> FullParse(parse, f.file).None?
  {
    hide FullParse, Committed;
    ResumedParse(parse, f.file, f.offset, f.seen);
    var got := Tail(parse, Some(f.file), f.offset);
    if got.Some? {
      PollReachesCommitted(parse, f, got.value.0);
    }
  }

  lemma CommittedAfter(read: Bytes, chunk: Bytes)
    requires AtBoundary(read)
    ensures Committed(read + chunk) == read + Committed(chunk)
  {
    var c := Committed(chunk);
    var b, n := read + chunk, |read| + |c|;
    assert b[..n] == read + c;
    assert b[n..] == chunk[|c|..];
    BoundaryConcat(read, c);
    CommittedIs(b, n);
  }

  /** A successful poll stops exactly after the last committed line. */
  lemma PollReachesCommitted<E>(parse: Parser<E>, f: Follower<E>, more: seq<E>)
    requires Faithful(parse, f) && FullParse(parse, f.file[f.offset..]) == Some(more)
    ensures var end := f.offset + |Committed(f.file[f.offset..])|;
      && end <= |f.file| && Committed(f.file) == f.file[..end] && AtBoundary(f.file[..end])
      && FullParse(parse, f.file[..end]) == Some(f.seen + more)
  {
    hide FullParse, Committed;
    var read, chunk := f.file[..f.offset], f.file[f.offset..];
    assert f.file == read + chunk;
    CommittedAfter(read, chunk);
    CommittedParse(parse, f.file);
    ResumedParse(parse, f.file, f.offset, f.seen);
    var c := Committed(f.file);
    assert c == f.file[..|c|];
  }

  /** Through any appends, crashes and repairs, the events of successive polls are the committed events:
      none lost, none repeated, none taken back by a repair; and a poll that succeeds has seen them all. */
  lemma {:induction false} PollsSeeCommitted<E>(parse: Parser<E>, steps: seq<LogStep>)
    requires forall i :: 0 <= i < |steps| && steps[i].Append? ==> NoNewline(steps[i].line)
    ensures Faithful(parse, FollowAll(parse, steps))
  {
    if steps != [] {
      PollsSeeCommitted(parse, steps[..|steps| - 1]);
      var f, step := FollowAll(parse, steps[..|steps| - 1]), steps[|steps| - 1];
      if step.Append? {
        AppendKeepsFaith(parse, f, step.line, step.repaired,
                         if step.reached <= |step.line| + 1 then step.reached else |step.line| + 1);
      } else {
        PollKeepsFaith(parse, f);
      }
    }
  }
}
