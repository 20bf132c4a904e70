/** Newline-framed input, read through a buffered reader that delivers chunks of
    its own choosing, and split into byte-range partitions for parallel workers. */
module NativeInput {
  import opened Wrappers

  type Byte = x: int | 0 <= x < 256

  const NEWLINE: Byte := 10
  const RETURN: Byte := 13
  const MAX_NATIVE_RECORD_BYTES: nat := 8 * 1024 * 1024

  datatype Result<T> = Ok(value: T) | TooLong

  // ---- lines --------------------------------------------------------------------------

  /** Where the line holding the byte at `p` ends: after its newline, or at the end
      of the input. */
  function LineEnd(data: seq<Byte>, p: nat): (end: nat)
    requires p <= |data|
    ensures p <= end <= |data| && (p < |data| ==> p < end)
    ensures forall i :: p <= i < end - 1 ==> data[i] != NEWLINE
    ensures p < end < |data| ==> data[end - 1] == NEWLINE
    decreases |data| - p
  {
    if p == |data| then p else if data[p] == NEWLINE then p + 1 else LineEnd(data, p + 1)
  }

  function Strip(line: seq<Byte>): seq<Byte> {
    var line := if line != [] && line[|line| - 1] == NEWLINE then line[..|line| - 1] else line;
    if line != [] && line[|line| - 1] == RETURN then line[..|line| - 1] else line
  }

  /** Any line end is taken off, and nothing of the record. */
  lemma StripIs(record: seq<Byte>, end: seq<Byte>)
    requires record == [] || (record[|record| - 1] != NEWLINE && record[|record| - 1] != RETURN)
    requires end == [] || end == [NEWLINE] || end == [RETURN] || end == [RETURN, NEWLINE]
    ensures Strip(record + end) == record
  {
    assert (record + end)[..|record|] == record;
    if end == [RETURN, NEWLINE] { assert (record + end)[..|record| + 1][..|record|] == record; }
  }

  predicate Blank(line: seq<Byte>) {
    forall i :: 0 <= i < |line| ==> line[i] in {9, 10, 12, 13, 32}
  }

  /** What reading delivers: records, and whether it ended at a line over the cap. */
  datatype Reading = Reading(records: seq<seq<Byte>>, failed: bool)

  function Joined(a: Reading, b: Reading): Reading {
    if a.failed then a else Reading(a.records + b.records, b.failed)
  }

  lemma JoinedAssociates(a: Reading, b: Reading, c: Reading)
    ensures Joined(a, Joined(b, c)) == Joined(Joined(a, b), c)
  {
  }

  lemma JoinedFailed(a: Reading, b: Reading)
    ensures a.failed ==> Joined(a, b) == a
  {
  }

  lemma JoinedEmpty(a: Reading)
    ensures Joined(Reading([], false), a) == a
    ensures Joined(a, Reading([], false)) == a
  {
  }

  /** Reading the lines that start at or after `p` and before `stop`. */
  function Read(data: seq<Byte>, p: nat, stop: nat, cap: nat): Reading
    requires p <= |data|
    decreases |data| - p
  {
    if p >= stop || p == |data| then Reading([], false)
    else if LineEnd(data, p) - p > cap then Reading([], true)
    else
      var line := Strip(data[p..LineEnd(data, p)]);
      var rest := Read(data, LineEnd(data, p), stop, cap);
      if Blank(line) then rest else Joined(Reading([line], false), rest)
  }

  // ---- what reading delivers, line by line ------------------------------------------------

  /** A line: what is on it, and how it ends. */
  datatype Line = Line(body: seq<Byte>, end: seq<Byte>)

  function LineBytes(l: Line): seq<Byte> { l.body + l.end }

  /** The end is all of it: a return before the newline, or before the end of the input,
      is part of the end. */
  predicate Whole(l: Line) {
    && 10 !in l.body && LineBytes(l) != []
    && (l.end == [] || l.end == [10] || l.end == [13] || l.end == [13, 10])
    && (l.body != [] && l.body[|l.body| - 1] == 13 ==> l.end != [] && l.end != [10])
  }

  /** Every line but the last ends in a newline. */
  predicate WellEnded(lines: seq<Line>) {
    && (forall i :: 0 <= i < |lines| ==> Whole(lines[i]))
    && (forall i :: 0 <= i < |lines| - 1 ==> lines[i].end == [10] || lines[i].end == [13, 10])
  }

  function TextOf(lines: seq<Line>): seq<Byte> {
    if lines == [] then [] else LineBytes(lines[0]) + TextOf(lines[1..])
  }

  /** There is something on the line besides white space. */
  predicate Inked(body: seq<Byte>) {
    exists i :: 0 <= i < |body| && body[i] != 9 && body[i] != 10 && body[i] != 12 && body[i] != 13 && body[i] != 32
  }

  /** The inked lines, in order, up to the first one over the cap. */
  function RecordsOf(lines: seq<Line>, cap: nat): seq<seq<Byte>> {
    if lines == [] || |LineBytes(lines[0])| > cap then []
    else (if Inked(lines[0].body) then [lines[0].body] else []) + RecordsOf(lines[1..], cap)
  }

  predicate Overlong(lines: seq<Line>, cap: nat) {
    exists i :: 0 <= i < |lines| && |LineBytes(lines[i])| > cap
  }

  function Delivered(lines: seq<Line>, cap: nat): Reading {
    Reading(RecordsOf(lines, cap), Overlong(lines, cap))
  }

  /** The lines, from position `p` on, that start before `stop`. */
  function Before(lines: seq<Line>, p: nat, stop: nat): seq<Line> {
    if lines == [] || p >= stop then [] else [lines[0]] + Before(lines[1..], p + |LineBytes(lines[0])|, stop)
  }

  lemma StripLine(l: Line)
    requires Whole(l)
    ensures Strip(LineBytes(l)) == l.body
  {
    var line := LineBytes(l);
    assert line[..|l.body|] == l.body;
    if l.end == [RETURN, NEWLINE] {
      assert line[..|line| - 1] == l.body + [RETURN];
      assert (l.body + [RETURN])[..|l.body|] == l.body;
    }
  }

  lemma BlankIff(body: seq<Byte>)
    ensures Blank(body) <==> !Inked(body)
  {
  }

  lemma LineEndOf(data: seq<Byte>, p: nat, body: seq<Byte>, end: seq<Byte>, rest: seq<Byte>)
    requires p <= |data| && data[p..] == body + (end + rest) && forall i :: 0 <= i < |body| ==> body[i] != NEWLINE
    requires end == [NEWLINE] || end == [RETURN, NEWLINE] || ((end == [] || end == [RETURN]) && rest == [])
    ensures LineEnd(data, p) == p + |body| + |end| <= |data|
  {
    hide LineEnd;
    var q := p + |body|;
    SlicesOf(data, p, body, end + rest);
    SlicesOf(data, q, end, rest);
    forall i | p <= i < q ensures data[i] != NEWLINE { assert data[i] == data[p..q][i - p] == body[i - p]; }
    LineEndFrom(data, p, q);
    EndOfLine(data, q, end);
  }

  lemma FirstOf(lines: seq<Line>)
    requires lines != [] && WellEnded(lines)
    ensures TextOf(lines) == LineBytes(lines[0]) + TextOf(lines[1..]) && WellEnded(lines[1..]) && Whole(lines[0])
    ensures lines[0].end == [] || lines[0].end == [RETURN] ==> TextOf(lines[1..]) == []
  {
  }

  /** Where the first line of the rest ends. */
  lemma FirstLineEnds(data: seq<Byte>, p: nat, lines: seq<Line>)
    requires p <= |data| && lines != [] && WellEnded(lines) && data[p..] == TextOf(lines)
    ensures p < |data| && LineEnd(data, p) == p + |LineBytes(lines[0])|
    ensures data[p..LineEnd(data, p)] == LineBytes(lines[0]) && data[LineEnd(data, p)..] == TextOf(lines[1..])
  {
    hide LineEnd, TextOf, WellEnded;
    var l, rest := lines[0], TextOf(lines[1..]);
    FirstOf(lines);
    assert LineBytes(l) + rest == l.body + (l.end + rest);
    LineEndOf(data, p, l.body, l.end, rest);
    SlicesOf(data, p, LineBytes(l), rest);
  }

  lemma SlicesOf(data: seq<Byte>, p: nat, a: seq<Byte>, b: seq<Byte>)
    requires p <= |data| && data[p..] == a + b
    ensures p + |a| <= |data| && data[p..p + |a|] == a && data[p + |a|..] == b
  {
    assert data[p..][..|a|] == a && data[p..][|a|..] == b;
  }

  lemma EndOfLine(data: seq<Byte>, q: nat, end: seq<Byte>)
    requires q + |end| <= |data| && data[q..q + |end|] == end
    requires end == [NEWLINE] || end == [RETURN, NEWLINE] || ((end == [] || end == [RETURN]) && q + |end| == |data|)
    ensures LineEnd(data, q) == q + |end|
  {
    if end != [] { assert data[q] == data[q..q + |end|][0] == end[0]; }
    if |end| == 2 { assert data[q + 1] == data[q..q + |end|][1] == end[1]; }
  }

  /** Reading delivers exactly the inked lines that start before the stop, in order, up to
      the first over the cap, and fails exactly if there is such a one. */
  lemma {:induction false} ReadIs(data: seq<Byte>, p: nat, stop: nat, cap: nat, lines: seq<Line>)
    requires p <= |data| && WellEnded(lines) && data[p..] == TextOf(lines)
    ensures Read(data, p, stop, cap) == Delivered(Before(lines, p, stop), cap)
    decreases |lines|
  {
    hide Read, LineEnd, TextOf, WellEnded, Delivered, Strip, Blank, Inked, Joined, LineBytes, Whole;
    if lines == [] || p >= stop {
      NothingRead(data, p, stop, cap, lines);
    } else {
      FirstLineEnds(data, p, lines);
      ReadFirst(data, p, stop, cap);
      FirstOf(lines);
      StripLine(lines[0]);
      BlankIff(lines[0].body);
      ReadIs(data, LineEnd(data, p), stop, cap, lines[1..]);
      DeliveredMore(lines[0], Before(lines[1..], LineEnd(data, p), stop), cap);
    }
  }

  lemma NothingRead(data: seq<Byte>, p: nat, stop: nat, cap: nat, lines: seq<Line>)
    requires p <= |data| && data[p..] == TextOf(lines) && (lines == [] || p >= stop)
    ensures Read(data, p, stop, cap) == Delivered([], cap) && Before(lines, p, stop) == []
  {
    assert lines == [] ==> p == |data|;
  }

  lemma ReadFirst(data: seq<Byte>, p: nat, stop: nat, cap: nat)
    requires p < |data| && p < stop
    ensures Read(data, p, stop, cap) ==
      var line, rest := data[p..LineEnd(data, p)], Read(data, LineEnd(data, p), stop, cap);
      if |line| > cap then Reading([], true)
      else if Blank(Strip(line)) then rest
      else Joined(Reading([Strip(line)], false), rest)
  {
    hide LineEnd, Strip, Blank, Joined;
  }

  lemma DeliveredMore(l: Line, rest: seq<Line>, cap: nat)
    ensures Delivered([l] + rest, cap) ==
      if |LineBytes(l)| > cap then Reading([], true)
      else if !Inked(l.body) then Delivered(rest, cap)
      else Joined(Reading([l.body], false), Delivered(rest, cap))
  {
    var all := [l] + rest;
    assert all[1..] == rest;
    if Overlong(rest, cap) {
      var i :| 0 <= i < |rest| && |LineBytes(rest[i])| > cap;
      assert all[i + 1] == rest[i];
    }
    if Overlong(all, cap) && |LineBytes(l)| <= cap {
      var i :| 0 <= i < |all| && |LineBytes(all[i])| > cap;
      assert all[i] == rest[i - 1];
    }
  }

  lemma {:induction false} BeforeEnd(lines: seq<Line>, p: nat, stop: nat)
    requires WellEnded(lines) && stop >= p + |TextOf(lines)|
    ensures Before(lines, p, stop) == lines
    decreases |lines|
  {
    if lines == [] {
    } else {
      assert LineBytes(lines[0]) != [];
      BeforeEnd(lines[1..], p + |LineBytes(lines[0])|, stop);
    }
  }

  /** Every input is made of such lines. */
  lemma {:induction false} EveryInputHasLines(data: seq<Byte>, p: nat) returns (lines: seq<Line>)
    requires p <= |data|
    ensures WellEnded(lines) && TextOf(lines) == data[p..]
    decreases |data| - p
  {
    if p == |data| {
      lines := [];
    } else {
      var q := LineEnd(data, p);
      var rest := EveryInputHasLines(data, q);
      var l := SplitLine(data[p..q]);
      lines := [l] + rest;
      assert lines[1..] == rest && data[p..] == data[p..q] + data[q..];
      if rest != [] {
        assert LineBytes(rest[0]) != [];
        assert q < |data| && data[q - 1] == data[p..q][q - p - 1] == NEWLINE;
      }
    }
  }

  lemma SplitLine(raw: seq<Byte>) returns (l: Line)
    requires raw != [] && forall i :: 0 <= i < |raw| - 1 ==> raw[i] != NEWLINE
    ensures Whole(l) && LineBytes(l) == raw
    ensures raw[|raw| - 1] == NEWLINE ==> l.end == [NEWLINE] || l.end == [RETURN, NEWLINE]
  {
    var n := |raw|;
    if raw[n - 1] == NEWLINE {
      if n >= 2 && raw[n - 2] == RETURN {
        l := Line(raw[..n - 2], [RETURN, NEWLINE]);
      } else {
        l := Line(raw[..n - 1], [NEWLINE]);
      }
    } else if raw[n - 1] == RETURN {
      l := Line(raw[..n - 1], [RETURN]);
    } else {
      l := Line(raw, []);
    }
  }

  // ---- the buffered reader -----------------------------------------------------------------

  /** `chunk` is the environment: how much a refill at a position delivers (at
      least one byte, unless the input is exhausted). */
  class BufReader {
    const data: seq<Byte>
    const chunk: nat -> nat
    var at: nat
    var filled: nat

    predicate Valid()
      reads this
    {
      at <= filled <= |data|
    }

    constructor (data: seq<Byte>, start: nat, chunk: nat -> nat)
      requires start <= |data|
      ensures Valid() && this.data == data && this.chunk == chunk && at == start
    {
      this.data, this.chunk, at, filled := data, chunk, start, start;
    }

    method FillBuf() returns (available: seq<Byte>)
      requires Valid()
      modifies this`filled
      ensures Valid() && available == data[at..filled] && (available == [] <==> at == |data|)
    {
      if at == filled && at < |data| {
        var size := if chunk(at) == 0 then 1 else chunk(at);
        filled := if at + size <= |data| then at + size else |data|;
      }
      available := data[at..filled];
    }

    method Consume(n: nat)
      requires Valid() && at + n <= filled
      modifies this`at
      ensures Valid() && at == old(at) + n
    {
      at := at + n;
    }
  }

  method Position(bytes: seq<Byte>) returns (take: nat)
    ensures take <= |bytes| && (bytes != [] ==> take > 0)
    ensures forall i :: 0 <= i < take - 1 ==> bytes[i] != NEWLINE
    ensures take < |bytes| ==> take > 0 && bytes[take - 1] == NEWLINE
  {
    for i := 0 to |bytes|
      invariant forall j :: 0 <= j < i ==> bytes[j] != NEWLINE
    {
      if bytes[i] == NEWLINE { return i + 1; }
    }
    return |bytes|;
  }

  lemma {:induction false} LineEndFrom(data: seq<Byte>, p: nat, q: nat)
    requires p <= q <= |data| && (forall i :: p <= i < q ==> data[i] != NEWLINE)
    ensures LineEnd(data, p) == LineEnd(data, q)
    decreases q - p
  {
    if p == q {
    } else {
      LineEndFrom(data, p + 1, q);
    }
  }

  /** One line, whatever chunks it arrives in; an error exactly when the line is
      longer than the cap. */
  method ReadBoundedLine(reader: BufReader, cap: nat) returns (r: Result<Option<seq<Byte>>>)
    requires reader.Valid()
    modifies reader
    ensures reader.Valid()
    ensures
      var p := old(reader.at);
      var end := LineEnd(reader.data, p);
      if p == |reader.data| then r == Ok(None) && reader.at == p
      else if end - p > cap then r == TooLong
      else r == Ok(Some(reader.data[p..end])) && reader.at == end
  {
    hide LineEnd;
    ghost var p := reader.at;
    var line: seq<Byte> := [];
    while true
      invariant reader.Valid() && p <= reader.at && line == reader.data[p..reader.at] && |line| <= cap
      invariant forall i :: p <= i < reader.at ==> reader.data[i] != NEWLINE
      decreases |reader.data| - reader.at
    {
      var available := reader.FillBuf();
      LineEndFrom(reader.data, p, reader.at);
      if available == [] {
        return if line == [] then Ok(None) else Ok(Some(line));
      }
      var take := Position(available);
      TakeWithin(reader.data, reader.at, reader.filled, take);
      if |line| + take > cap { return TooLong; }
      SlicesJoin(reader.data, p, reader.at, reader.filled, take);
      line := line + available[..take];
      reader.Consume(take);
      if line[|line| - 1] == NEWLINE { return Ok(Some(line)); }
    }
  }

  lemma SlicesJoin(data: seq<Byte>, p: nat, at: nat, filled: nat, take: nat)
    requires p <= at <= filled <= |data| && take <= filled - at
    ensures data[p..at] + data[at..filled][..take] == data[p..at + take]
  {
  }

  /** A chunk's part of the line never goes past the line's end, and stops there
      only at its newline. */
  lemma TakeWithin(data: seq<Byte>, at: nat, filled: nat, take: nat)
    requires at < filled <= |data| && 0 < take <= filled - at
    requires forall i :: 0 <= i < take - 1 ==> data[at..filled][i] != NEWLINE
    requires take < filled - at ==> data[at + take - 1] == NEWLINE
    ensures at + take <= LineEnd(data, at)
    ensures data[at + take - 1] == NEWLINE ==> LineEnd(data, at) == at + take
  {
    var q := at + take - 1;
    assert forall i :: at <= i < q ==> data[at..filled][i - at] == data[i];
    LineEndFrom(data, at, q);
  }

  // ---- byte-range partitions ----------------------------------------------------------------

  /** Where a partition starting at `start` begins reading: past the line that
      began before it, which the previous partition owns. */
  function Resync(data: seq<Byte>, start: nat): nat {
    if start == 0 then 0 else if start >= |data| then |data| else LineEnd(data, start - 1)
  }

  /** The first record of a reading, its failure or its end. */
  function Next(r: Reading): Result<Option<seq<Byte>>> {
    if r.records != [] then Ok(Some(r.records[0])) else if r.failed then TooLong else Ok(None)
  }

  class NativeRecordSource {
    const reader: BufReader
    const end: nat
    var pos: nat

    ghost predicate Valid()
      reads this, reader
    {
      reader.Valid() && reader.at == pos && end <= |reader.data|
    }

    /** What is still to come. */
    ghost function Rest(cap: nat): Reading
      requires Valid()
      reads this, reader
    {
      Read(reader.data, pos, end, cap)
    }

    constructor (reader: BufReader, pos: nat, end: nat)
      requires reader.Valid() && reader.at == pos && end <= |reader.data|
      ensures Valid() && this.reader == reader && this.pos == pos && this.end == end
    {
      this.reader, this.pos, this.end := reader, pos, end;
    }

    method NextRecord(cap: nat) returns (r: Result<Option<seq<Byte>>>)
      requires Valid()
      modifies this, reader
      ensures var rest := old(Rest(cap));
        r == if rest.records != [] then Ok(Some(rest.records[0])) else if rest.failed then TooLong else Ok(None)
      ensures r.Ok? ==> Valid()
      ensures r.Ok? && r.value.Some? ==> old(Rest(cap)) == Joined(Reading([r.value.value], false), Rest(cap))
      ensures forall lines :: WellEnded(lines) && TextOf(lines) == old(reader.data[pos..]) ==>
        r == Next(Delivered(Before(lines, old(pos), end), cap))
    {
      ghost var p := pos;
      forall lines | WellEnded(lines) && TextOf(lines) == reader.data[p..]
        ensures Rest(cap) == Delivered(Before(lines, p, end), cap)
      {
        ReadIs(reader.data, p, end, cap, lines);
      }
      while true
        invariant Valid() && Rest(cap) == old(Rest(cap))
        decreases |reader.data| - pos
      {
        if pos >= end { return Ok(None); }
        var line := ReadBoundedLine(reader, cap);
        if line.TooLong? { return TooLong; }
        if line.value == None { return Ok(None); }
        var bytes := line.value.value;
        pos := pos + |bytes|;
        if !Blank(Strip(bytes)) { return Ok(Some(Strip(bytes))); }
      }
    }
  }

  /** The resync itself fails on a line that is over the cap. */
  predicate ResyncFails(data: seq<Byte>, start: nat, cap: nat) {
    0 < start < |data| && LineEnd(data, start - 1) - (start - 1) > cap + 1
  }

  method OpenRange(data: seq<Byte>, start: nat, end: nat, chunk: nat -> nat, cap: nat)
    returns (r: Result<NativeRecordSource>)
    ensures r.TooLong? <==> ResyncFails(data, start, cap)
    ensures r.Ok? ==> fresh(r.value) && fresh(r.value.reader) && r.value.Valid() && r.value.reader.data == data
    ensures r.Ok? ==> r.value.Rest(cap) == Read(data, Resync(data, start), if end < |data| then end else |data|, cap)
  {
    var last := if end < |data| then end else |data|;
    if 0 < start < |data| {
      var reader := new BufReader(data, start - 1, chunk);
      var skipped := ReadBoundedLine(reader, cap + 1);
      if skipped.TooLong? { return TooLong; }
      var pos := start - 1 + if skipped.value == None then 0 else |skipped.value.value|;
      var source := new NativeRecordSource(reader, pos, last);
      return Ok(source);
    }
    var pos := if start < |data| then start else |data|;
    var reader := new BufReader(data, pos, chunk);
    var source := new NativeRecordSource(reader, pos, last);
    return Ok(source);
  }

  lemma RangeIs(data: seq<Byte>, start: nat, end: nat, cap: nat)
    ensures Resync(data, start) <= |data|
    ensures forall lines :: WellEnded(lines) && TextOf(lines) == data[Resync(data, start)..] ==>
      Read(data, Resync(data, start), if end < |data| then end else |data|, cap)
        == Delivered(Before(lines, Resync(data, start), if end < |data| then end else |data|), cap)
  {
    forall lines | WellEnded(lines) && TextOf(lines) == data[Resync(data, start)..]
      ensures Read(data, Resync(data, start), if end < |data| then end else |data|, cap)
        == Delivered(Before(lines, Resync(data, start), if end < |data| then end else |data|), cap)
    {
      ReadIs(data, Resync(data, start), if end < |data| then end else |data|, cap, lines);
    }
  }

  /** Drain one partition. */
  method ReadRange(data: seq<Byte>, start: nat, end: nat, chunk: nat -> nat, cap: nat) returns (r: Reading)
    ensures !ResyncFails(data, start, cap) ==>
      r == Read(data, Resync(data, start), if end < |data| then end else |data|, cap)
    ensures ResyncFails(data, start, cap) ==> r.failed
    ensures !ResyncFails(data, start, cap) ==>
      forall lines :: WellEnded(lines) && TextOf(lines) == data[Resync(data, start)..] ==>
        r == Delivered(Before(lines, Resync(data, start), if end < |data| then end else |data|), cap)
  {
    RangeIs(data, start, end, cap);
    hide Read, Resync, ResyncFails, Delivered, Before, TextOf, WellEnded;
    var ranged := OpenRange(data, start, end, chunk, cap);
    if ranged.TooLong? { return Reading([], true); }
    var source := ranged.value;
    ghost var whole := source.Rest(cap);
    var records := [];
    JoinedEmpty(whole);
    while true
      invariant source.Valid() && fresh(source) && fresh(source.reader)
      invariant whole == Joined(Reading(records, false), source.Rest(cap))
      decreases |source.Rest(cap).records|
    {
      ghost var before := source.Rest(cap);
      var next := source.NextRecord(cap);
      if next.TooLong? {
        assert before == Reading([], true);
        return Reading(records, true);
      }
      if next.value == None {
        assert before == Reading([], false);
        return Reading(records, false);
      }
      JoinedAssociates(Reading(records, false), Reading([next.value.value], false), source.Rest(cap));
      records := records + [next.value.value];
    }
  }

  // ---- partitions make up the whole -----------------------------------------------------------

  /** `Resync` finds the least line start at or after the cut. */
  lemma ResyncLeast(data: seq<Byte>, a: nat, b: nat)
    requires a <= b <= |data|
    ensures Resync(data, a) >= b ==> Resync(data, b) == Resync(data, a)
    ensures a <= Resync(data, a) <= |data|
    ensures Resync(data, a) == 0 || Resync(data, a) == |data| || data[Resync(data, a) - 1] == NEWLINE
    ensures (a == 0 ==> Resync(data, a) == 0) && forall k :: 0 < a <= k + 1 < Resync(data, a) ==> data[k] != NEWLINE
  {
  }

  /** Reading up to a cut and then from it is reading straight through. */
  lemma {:induction false} ReadSplits(data: seq<Byte>, start: nat, cut: nat, stop: nat, cap: nat)
    requires start <= cut <= stop <= |data|
    ensures Resync(data, start) <= |data| && Resync(data, cut) <= |data|
    ensures Read(data, Resync(data, start), stop, cap)
            == Joined(Read(data, Resync(data, start), cut, cap), Read(data, Resync(data, cut), stop, cap))
    decreases |data| - Resync(data, start)
  {
    ResyncLeast(data, start, cut);
    ResyncLeast(data, cut, stop);
    hide Joined, Strip, Blank;
    var p := Resync(data, start);
    if p >= cut {
      JoinedEmpty(Read(data, Resync(data, cut), stop, cap));
    } else if LineEnd(data, p) - p <= cap {
      var next, rest := LineEnd(data, p), Read(data, Resync(data, cut), stop, cap);
      assert Resync(data, p + 1) == next;
      ReadSplits(data, p + 1, cut, stop, cap);
      JoinedAssociates(Reading([Strip(data[p..next])], false), Read(data, next, cut, cap), rest);
    } else {
      JoinedFailed(Read(data, p, cut, cap), Read(data, Resync(data, cut), stop, cap));
    }
  }

  /** Cut points of a partitioning of the whole input. */
  ghost predicate Cuts(data: seq<Byte>, cuts: seq<nat>) {
    && |cuts| >= 2 && cuts[0] == 0 && cuts[|cuts| - 1] == |data|
    && forall i, j :: 0 <= i < j < |cuts| ==> cuts[i] <= cuts[j]
  }

  function InOrder(data: seq<Byte>, cuts: seq<nat>, cap: nat): Reading
    requires |cuts| >= 1 && forall i :: 0 <= i < |cuts| ==> cuts[i] <= |data|
    decreases |cuts|
  {
    if |cuts| == 1 then Reading([], false)
    else
      var n := |cuts| - 1;
      Joined(InOrder(data, cuts[..n], cap), Read(data, Resync(data, cuts[n - 1]), cuts[n], cap))
  }

  lemma {:induction false} InOrderReads(data: seq<Byte>, cuts: seq<nat>, cap: nat)
    requires |cuts| >= 1 && cuts[0] == 0
    requires forall i, j :: 0 <= i < j < |cuts| ==> cuts[i] <= cuts[j]
    requires forall i :: 0 <= i < |cuts| ==> cuts[i] <= |data|
    ensures InOrder(data, cuts, cap) == Read(data, 0, cuts[|cuts| - 1], cap)
    decreases |cuts|
  {
    hide Read, Joined, LineEnd;
    if |cuts| == 1 {
      ReadNothing(data, cap);
    } else {
      var n := |cuts| - 1;
      InOrderReads(data, cuts[..n], cap);
      ReadSplits(data, 0, cuts[n - 1], cuts[n], cap);
    }
  }

  /** For any input and any increasing cut points, the partitions' records in order
      are exactly the whole input's: each record once, in order, up to the first
      line over the cap. */
  lemma PartitionsMakeWhole(data: seq<Byte>, cuts: seq<nat>, cap: nat)
    requires Cuts(data, cuts)
    ensures forall i :: 0 <= i < |cuts| ==> cuts[i] <= |data|
    ensures InOrder(data, cuts, cap) == Read(data, 0, |data|, cap)
  {
    InOrderReads(data, cuts, cap);
  }

  /** A worker's resync fails only on a line that the partitions before it own and have
      already failed on. */
  lemma {:induction false} ResyncFailsOnLongLine(data: seq<Byte>, p: nat, start: nat, stop: nat, cap: nat)
    requires p < start <= stop <= |data| && ResyncFails(data, start, cap)
    ensures Read(data, p, stop, cap).failed
    decreases |data| - p
  {
    if LineEnd(data, p) >= start {
      LineEndFrom(data, p, start - 1);
    } else if LineEnd(data, p) - p <= cap {
      ResyncFailsOnLongLine(data, LineEnd(data, p), start, stop, cap);
    }
  }

  // ---- the workers' ranges -------------------------------------------------------------------

  function Chunk(len: nat, workers: nat): nat {
    var lanes := if workers == 0 then 1 else workers;
    var chunk := (len + lanes - 1) / lanes;
    if chunk == 0 then 1 else chunk
  }

  predicate Spaced(cuts: seq<nat>, i: nat, chunk: nat)
    requires 0 < i < |cuts|
  {
    cuts[i] == cuts[i - 1] + chunk
  }

  /** Equal byte ranges, one per worker, rounded up. */
  method PartitionInput(len: nat, workers: nat) returns (cuts: seq<nat>)
    ensures |cuts| >= 2 && cuts[0] == 0 && cuts[|cuts| - 1] == len
    ensures forall i, j :: 0 <= i < j < |cuts| ==> cuts[i] <= cuts[j]
    ensures |cuts| - 1 <= (if workers == 0 then 1 else workers)
    ensures forall i :: 0 < i < |cuts| - 1 ==> Spaced(cuts, i, Chunk(len, workers))
    ensures cuts[|cuts| - 1] <= cuts[|cuts| - 2] + Chunk(len, workers)
  {
    hide Chunk, Times;
    var chunk := Chunk(len, workers);
    TimesStep(0, chunk);
    cuts := [0];
    var start := 0;
    while start < len
      invariant |cuts| >= 1 && cuts[0] == 0 && cuts[|cuts| - 1] == start <= len
      invariant forall i, j :: 0 <= i < j < |cuts| ==> cuts[i] <= cuts[j]
      invariant start < len ==> start == Times(|cuts| - 1, chunk)
      invariant |cuts| - 1 <= (if workers == 0 then 1 else workers)
      invariant forall i :: 0 < i < |cuts| - 1 ==> Spaced(cuts, i, chunk)
      invariant |cuts| > 1 ==> start <= cuts[|cuts| - 2] + chunk && (start < len ==> start == cuts[|cuts| - 2] + chunk)
      decreases len - start
    {
      LanesCover(len, workers, |cuts| - 1);
      TimesStep(|cuts| - 1, chunk);
      var end := if start + chunk <= len then start + chunk else len;
      ghost var before := cuts;
      cuts := cuts + [end];
      assert forall i :: 0 < i < |before| - 1 ==> Spaced(before, i, chunk) ==> Spaced(cuts, i, chunk);
      start := end;
    }
    if |cuts| == 1 { cuts := cuts + [0]; }
  }

  function Times(a: nat, b: nat): nat { a * b }

  lemma TimesStep(a: nat, b: nat)
    ensures Times(0, b) == 0 && Times(a + 1, b) == Times(a, b) + b
  {
  }

  lemma LanesCover(len: nat, workers: nat, k: nat)
    requires Times(k, Chunk(len, workers)) < len
    ensures k < (if workers == 0 then 1 else workers) && Chunk(len, workers) >= 1
  {
  }

  /** The workers' readings in partition order: exactly what one reader would yield, for
      any input, chunking, number of workers and cap, over-long lines included. */
  method ReadPartitioned(data: seq<Byte>, workers: nat, chunk: nat -> nat, cap: nat) returns (r: Reading)
    ensures r == Read(data, 0, |data|, cap)
    ensures forall lines :: WellEnded(lines) && TextOf(lines) == data ==> r == Delivered(lines, cap)
  {
    WholeIs(data, cap);
    hide Read, Resync, ResyncFails, Joined, Spaced, Delivered, TextOf, WellEnded;
    var cuts := PartitionInput(|data|, workers);
    r := Reading([], false);
    ReadNothing(data, cap);
    for i := 1 to |cuts|
      invariant cuts[i - 1] <= |data| && r == Read(data, 0, cuts[i - 1], cap)
    {
      var part := ReadRange(data, cuts[i - 1], cuts[i], chunk, cap);
      JoinPart(data, cuts[i - 1], cuts[i], cap, part);
      r := Joined(r, part);
    }
  }

  lemma WholeIs(data: seq<Byte>, cap: nat)
    ensures forall lines :: WellEnded(lines) && TextOf(lines) == data ==>
      Read(data, 0, |data|, cap) == Delivered(lines, cap)
  {
    forall lines | WellEnded(lines) && TextOf(lines) == data
      ensures Read(data, 0, |data|, cap) == Delivered(lines, cap)
    {
      assert data[0..] == data;
      ReadIs(data, 0, |data|, cap, lines);
      BeforeEnd(lines, 0, |data|);
    }
  }

  lemma ReadNothing(data: seq<Byte>, cap: nat)
    ensures Read(data, 0, 0, cap) == Reading([], false)
  {
  }

  /** What a worker yields goes after what the workers before it yield. */
  lemma JoinPart(data: seq<Byte>, cut: nat, end: nat, cap: nat, part: Reading)
    requires cut <= end <= |data|
    requires !ResyncFails(data, cut, cap) ==> part == Read(data, Resync(data, cut), end, cap)
    ensures Joined(Read(data, 0, cut, cap), part) == Read(data, 0, end, cap)
  {
    hide Read;
    ReadSplits(data, 0, cut, end, cap);
    if ResyncFails(data, cut, cap) {
      ResyncFailsOnLongLine(data, 0, cut, cut, cap);
      JoinedFailed(Read(data, 0, cut, cap), part);
      JoinedFailed(Read(data, 0, cut, cap), Read(data, Resync(data, cut), end, cap));
    }
  }
}
