/** The nesting cap on native records: one pass over the raw bytes, before any
    parse.  JSON texts are those of sections 2 to 7 of RFC 8259, as syntax trees
    that keep every byte of white space. */
module JsonDepth {
  import opened NativeInput

  const QUOTE: Byte := 0x22
  const BACKSLASH: Byte := 0x5C

  predicate Opens(b: Byte) { b == 0x7B || b == 0x5B }

  predicate Closes(b: Byte) { b == 0x7D || b == 0x5D }

  // ---- JSON texts -------------------------------------------------------------------------

  /** A character of a string: unescaped, a two-byte escape, or a `\u` escape. */
  datatype Char = Plain(byte: Byte) | Escaped(byte: Byte) | Unicode(hex: seq<Byte>)

  /** Scalars are literals and numbers; only their bytes matter here. */
  datatype Value = Scalar(text: seq<Byte>) | String(chars: seq<Char>) | Array(items: Items) | Object(members: Members)

  /** White space around tokens is kept, with the separating commas and colons: any
      bytes the scan does not react to may stand there. */
  datatype Items = NoItems(space: seq<Byte>) | Item(before: seq<Byte>, value: Value, after: seq<Byte>, rest: Items)

  datatype Members =
    | NoMembers(space: seq<Byte>)
    | Member(before: seq<Byte>, key: seq<Char>, colon: seq<Byte>, value: Value, after: seq<Byte>, rest: Members)

  /** No quote and no bracket: white space, commas, colons, literals, numbers. */
  predicate Neutral(bytes: seq<Byte>) {
    forall i :: 0 <= i < |bytes| ==> bytes[i] != QUOTE && !Opens(bytes[i]) && !Closes(bytes[i])
  }

  predicate GoodChar(c: Char) {
    match c
    case Plain(b) => b != QUOTE && b != BACKSLASH && b >= 0x20
    case Escaped(b) => b in {0x22, 0x5C, 0x2F, 0x62, 0x66, 0x6E, 0x72, 0x74}
    case Unicode(hex) =>
      && |hex| == 4
      && forall i :: 0 <= i < 4 ==> 0x30 <= hex[i] <= 0x39 || 0x41 <= hex[i] <= 0x46 || 0x61 <= hex[i] <= 0x66
  }

  predicate GoodChars(chars: seq<Char>) { forall i :: 0 <= i < |chars| ==> GoodChar(chars[i]) }

  predicate Good(v: Value) {
    match v
    case Scalar(text) => Neutral(text)
    case String(chars) => GoodChars(chars)
    case Array(items) => GoodItems(items)
    case Object(members) => GoodMembers(members)
  }

  predicate GoodItems(items: Items) {
    match items
    case NoItems(space) => Neutral(space)
    case Item(before, value, after, rest) => Neutral(before) && Good(value) && Neutral(after) && GoodItems(rest)
  }

  predicate GoodMembers(members: Members) {
    match members
    case NoMembers(space) => Neutral(space)
    case Member(before, key, colon, value, after, rest) =>
      Neutral(before) && GoodChars(key) && Neutral(colon) && Good(value) && Neutral(after) && GoodMembers(rest)
  }

  function PrintChar(c: Char): seq<Byte> {
    match c
    case Plain(b) => [b]
    case Escaped(b) => [BACKSLASH, b]
    case Unicode(hex) => [BACKSLASH, 0x75] + hex
  }

  function PrintChars(chars: seq<Char>): seq<Byte> {
    if chars == [] then [] else PrintChar(chars[0]) + PrintChars(chars[1..])
  }

  function PrintString(chars: seq<Char>): seq<Byte> {
    [QUOTE] + (PrintChars(chars) + [QUOTE])
  }

  function Print(v: Value): seq<Byte> {
    match v
    case Scalar(text) => text
    case String(chars) => PrintString(chars)
    case Array(items) => [0x5B] + (PrintItems(items) + [0x5D])
    case Object(members) => [0x7B] + (PrintMembers(members) + [0x7D])
  }

  function PrintItems(items: Items): seq<Byte> {
    match items
    case NoItems(space) => space
    case Item(before, value, after, rest) => before + (Print(value) + (after + PrintItems(rest)))
  }

  function PrintMembers(members: Members): seq<Byte> {
    match members
    case NoMembers(space) => space
    case Member(before, key, colon, value, after, rest) =>
      before + (PrintString(key) + (colon + (Print(value) + (after + PrintMembers(rest)))))
  }

  function Max(a: nat, b: nat): nat { if a >= b then a else b }

  /** Containers around the deepest value. */
  function Depth(v: Value): nat {
    match v
    case Scalar(_) => 0
    case String(_) => 0
    case Array(items) => 1 + ItemsDepth(items)
    case Object(members) => 1 + MembersDepth(members)
  }

  function ItemsDepth(items: Items): nat {
    match items
    case NoItems(_) => 0
    case Item(_, value, _, rest) => Max(Depth(value), ItemsDepth(rest))
  }

  function MembersDepth(members: Members): nat {
    match members
    case NoMembers(_) => 0
    case Member(_, _, _, value, _, rest) => Max(Depth(value), MembersDepth(rest))
  }

  // ---- the scan ----------------------------------------------------------------------------

  datatype Scan = Scan(depth: nat, inString: bool, escaped: bool) | Exceeded

  function Step(s: Scan, b: Byte, cap: nat): Scan {
    if s.Exceeded? then s
    else if s.inString then
      if s.escaped then Scan(s.depth, true, false)
      else if b == BACKSLASH then Scan(s.depth, true, true)
      else Scan(s.depth, b != QUOTE, false)
    else if b == QUOTE then Scan(s.depth, true, s.escaped)
    else if Opens(b) then if s.depth + 1 <= cap then Scan(s.depth + 1, false, s.escaped) else Exceeded
    else if Closes(b) then Scan(if s.depth > 0 then s.depth - 1 else 0, false, s.escaped)
    else s
  }

  function Steps(s: Scan, bytes: seq<Byte>, cap: nat): Scan
    decreases |bytes|
  {
    if bytes == [] then s else Steps(Step(s, bytes[0], cap), bytes[1..], cap)
  }

  method EnsureJsonDepth(bytes: seq<Byte>, cap: nat) returns (accepted: bool)
    ensures accepted <==> !Steps(Scan(0, false, false), bytes, cap).Exceeded?
  {
    var depth: nat, inString, escaped := 0, false, false;
    for i := 0 to |bytes|
      invariant Steps(Scan(depth, inString, escaped), bytes[i..], cap) == Steps(Scan(0, false, false), bytes, cap)
    {
      var b := bytes[i];
      assert bytes[i..][1..] == bytes[i + 1..];
      if inString {
        if escaped { escaped := false; }
        else if b == BACKSLASH { escaped := true; }
        else if b == QUOTE { inString := false; }
        continue;
      }
      if b == QUOTE {
        inString := true;
      } else if Opens(b) {
        depth := depth + 1;
        if depth > cap {
          StaysExceeded(bytes[i + 1..], cap);
          return false;
        }
      } else if Closes(b) {
        depth := if depth > 0 then depth - 1 else 0;
      }
    }
    assert bytes[|bytes|..] == [];
    return true;
  }

  lemma {:induction false} StaysExceeded(bytes: seq<Byte>, cap: nat)
    ensures Steps(Exceeded, bytes, cap) == Exceeded
    decreases |bytes|
  {
    if bytes == [] {
    } else {
      StaysExceeded(bytes[1..], cap);
    }
  }

  // ---- the scan measures nesting --------------------------------------------------------------

  lemma {:induction false} StepsConcat(s: Scan, a: seq<Byte>, b: seq<Byte>, cap: nat)
    ensures Steps(s, a + b, cap) == Steps(Steps(s, a, cap), b, cap)
    decreases |a|
  {
    if a == [] {
      assert a + b == b;
    } else {
      assert (a + b)[1..] == a[1..] + b;
      StepsConcat(Step(s, a[0], cap), a[1..], b, cap);
    }
  }

  lemma StepsOne(s: Scan, b: Byte, cap: nat)
    ensures Steps(s, [b], cap) == Step(s, b, cap)
  {
  }

  function Outside(depth: nat): Scan { Scan(depth, false, false) }

  /** Back outside at the same depth, unless `rise` more levels pass the cap. */
  function Measured(depth: nat, rise: nat, cap: nat): Scan {
    if depth + rise <= cap then Outside(depth) else Exceeded
  }

  lemma {:induction false} NeutralSteps(bytes: seq<Byte>, depth: nat, cap: nat)
    requires Neutral(bytes)
    ensures Steps(Outside(depth), bytes, cap) == Outside(depth)
    decreases |bytes|
  {
    if bytes == [] {
    } else {
      NeutralSteps(bytes[1..], depth, cap);
    }
  }

  lemma {:induction false} PlainSteps(bytes: seq<Byte>, depth: nat, cap: nat)
    requires forall i :: 0 <= i < |bytes| ==> bytes[i] != QUOTE && bytes[i] != BACKSLASH
    ensures Steps(Scan(depth, true, false), bytes, cap) == Scan(depth, true, false)
    decreases |bytes|
  {
    if bytes == [] {
    } else {
      PlainSteps(bytes[1..], depth, cap);
    }
  }

  lemma CharSteps(c: Char, depth: nat, cap: nat)
    requires GoodChar(c)
    ensures Steps(Scan(depth, true, false), PrintChar(c), cap) == Scan(depth, true, false)
  {
    var s := Scan(depth, true, false);
    match c
    case Plain(b) => StepsOne(s, b, cap);
    case Escaped(b) =>
      assert [BACKSLASH, b] == [BACKSLASH] + [b];
      StepsConcat(s, [BACKSLASH], [b], cap);
      StepsOne(s, BACKSLASH, cap);
      StepsOne(Step(s, BACKSLASH, cap), b, cap);
    case Unicode(hex) =>
      assert [BACKSLASH, 0x75] + hex == [BACKSLASH] + ([0x75] + hex);
      StepsConcat(s, [BACKSLASH], [0x75] + hex, cap);
      StepsOne(s, BACKSLASH, cap);
      StepsConcat(Step(s, BACKSLASH, cap), [0x75], hex, cap);
      StepsOne(Step(s, BACKSLASH, cap), 0x75, cap);
      PlainSteps(hex, depth, cap);
  }

  lemma {:induction false} CharsSteps(chars: seq<Char>, depth: nat, cap: nat)
    requires GoodChars(chars)
    ensures Steps(Scan(depth, true, false), PrintChars(chars), cap) == Scan(depth, true, false)
    decreases |chars|
  {
    if chars == [] {
    } else {
      CharSteps(chars[0], depth, cap);
      CharsSteps(chars[1..], depth, cap);
      StepsConcat(Scan(depth, true, false), PrintChar(chars[0]), PrintChars(chars[1..]), cap);
    }
  }

  /** Strings and escapes never count. */
  lemma StringSteps(chars: seq<Char>, depth: nat, cap: nat)
    requires GoodChars(chars)
    ensures Steps(Outside(depth), PrintString(chars), cap) == Outside(depth)
  {
    var s := Scan(depth, true, false);
    StepsConcat(Outside(depth), [QUOTE], PrintChars(chars) + [QUOTE], cap);
    StepsOne(Outside(depth), QUOTE, cap);
    StepsConcat(s, PrintChars(chars), [QUOTE], cap);
    CharsSteps(chars, depth, cap);
    StepsOne(s, QUOTE, cap);
  }

  /** After a part that measures `first`, a part that measures `second`. */
  lemma Sequence(depth: nat, a: seq<Byte>, first: nat, b: seq<Byte>, second: nat, cap: nat)
    requires depth <= cap
    requires Steps(Outside(depth), a, cap) == Measured(depth, first, cap)
    requires Steps(Outside(depth), b, cap) == Measured(depth, second, cap)
    ensures Steps(Outside(depth), a + b, cap) == Measured(depth, Max(first, second), cap)
  {
    StepsConcat(Outside(depth), a, b, cap);
    StaysExceeded(b, cap);
  }

  lemma NeutralMeasured(bytes: seq<Byte>, depth: nat, cap: nat)
    requires Neutral(bytes) && depth <= cap
    ensures Steps(Outside(depth), bytes, cap) == Measured(depth, 0, cap)
  {
  }

  /** A bracketed body measures one more than the body. */
  lemma Bracketed(depth: nat, open: Byte, body: seq<Byte>, rise: nat, close: Byte, cap: nat)
    requires depth <= cap && Opens(open) && Closes(close)
    requires depth + 1 <= cap ==> Steps(Outside(depth + 1), body, cap) == Measured(depth + 1, rise, cap)
    ensures Steps(Outside(depth), [open] + (body + [close]), cap) == Measured(depth, 1 + rise, cap)
  {
    StepsConcat(Outside(depth), [open], body + [close], cap);
    StepsOne(Outside(depth), open, cap);
    if depth + 1 <= cap {
      StepsConcat(Outside(depth + 1), body, [close], cap);
      StepsOne(Outside(depth + 1), close, cap);
      StaysExceeded([close], cap);
    } else {
      StaysExceeded(body + [close], cap);
    }
  }

  lemma {:induction false} ValueSteps(v: Value, depth: nat, cap: nat)
    requires Good(v) && depth <= cap
    ensures Steps(Outside(depth), Print(v), cap) == Measured(depth, Depth(v), cap)
    decreases v
  {
    match v
    case Scalar(text) => NeutralSteps(text, depth, cap);
    case String(chars) => StringSteps(chars, depth, cap);
    case Array(items) =>
      if depth + 1 <= cap { ItemsSteps(items, depth + 1, cap); }
      Bracketed(depth, 0x5B, PrintItems(items), ItemsDepth(items), 0x5D, cap);
    case Object(members) =>
      if depth + 1 <= cap { MembersSteps(members, depth + 1, cap); }
      Bracketed(depth, 0x7B, PrintMembers(members), MembersDepth(members), 0x7D, cap);
  }

  lemma {:induction false} ItemsSteps(items: Items, depth: nat, cap: nat)
    requires GoodItems(items) && depth <= cap
    ensures Steps(Outside(depth), PrintItems(items), cap) == Measured(depth, ItemsDepth(items), cap)
    decreases items
  {
    match items
    case NoItems(space) => NeutralSteps(space, depth, cap);
    case Item(before, value, after, rest) =>
      NeutralMeasured(before, depth, cap);
      NeutralMeasured(after, depth, cap);
      ValueSteps(value, depth, cap);
      ItemsSteps(rest, depth, cap);
      Sequence(depth, after, 0, PrintItems(rest), ItemsDepth(rest), cap);
      Sequence(depth, Print(value), Depth(value), after + PrintItems(rest), ItemsDepth(rest), cap);
      Sequence(depth, before, 0, Print(value) + (after + PrintItems(rest)), ItemsDepth(items), cap);
  }

  lemma {:induction false} MembersSteps(members: Members, depth: nat, cap: nat)
    requires GoodMembers(members) && depth <= cap
    ensures Steps(Outside(depth), PrintMembers(members), cap) == Measured(depth, MembersDepth(members), cap)
    decreases members
  {
    match members
    case NoMembers(space) => NeutralSteps(space, depth, cap);
    case Member(before, key, colon, value, after, rest) =>
      var d, r := depth, MembersDepth(rest);
      NeutralMeasured(before, d, cap);
      NeutralMeasured(colon, d, cap);
      NeutralMeasured(after, d, cap);
      StringSteps(key, d, cap);
      ValueSteps(value, d, cap);
      MembersSteps(rest, d, cap);
      Sequence(d, after, 0, PrintMembers(rest), r, cap);
      Sequence(d, Print(value), Depth(value), after + PrintMembers(rest), r, cap);
      Sequence(d, colon, 0, Print(value) + (after + PrintMembers(rest)), MembersDepth(members), cap);
      var tail := colon + (Print(value) + (after + PrintMembers(rest)));
      Sequence(d, PrintString(key), 0, tail, MembersDepth(members), cap);
      Sequence(d, before, 0, PrintString(key) + tail, MembersDepth(members), cap);
  }

  /** Every well-formed text is accepted exactly when it nests no deeper than the
      cap. */
  lemma AcceptsIffShallow(before: seq<Byte>, v: Value, after: seq<Byte>, cap: nat)
    requires Neutral(before) && Good(v) && Neutral(after)
    ensures !Steps(Scan(0, false, false), before + (Print(v) + after), cap).Exceeded? <==> Depth(v) <= cap
  {
    NeutralMeasured(before, 0, cap);
    NeutralMeasured(after, 0, cap);
    ValueSteps(v, 0, cap);
    Sequence(0, Print(v), Depth(v), after, 0, cap);
    Sequence(0, before, 0, Print(v) + after, Depth(v), cap);
  }
}
