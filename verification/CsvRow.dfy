/** Splitting one CSV row in the quoting of section 2 of RFC 4180, fields trimmed
    after extraction. */
module CsvRow {
  const QUOTE: char := '"'
  const COMMA: char := ','

  /** The Unicode White_Space property. */
  predicate IsSpace(c: char) {
    || '\t' <= c <= '\r' || c == ' ' || c == '\U{85}' || c == '\U{A0}' || c == '\U{1680}'
    || '\U{2000}' <= c <= '\U{200A}' || c == '\U{2028}' || c == '\U{2029}' || c == '\U{202F}'
    || c == '\U{205F}' || c == '\U{3000}'
  }

  /** Its 25 characters, by code point. */
  lemma SpacesAre(c: char)
    ensures IsSpace(c) <==>
      c as int in {0x9, 0xA, 0xB, 0xC, 0xD, 0x20, 0x85, 0xA0, 0x1680, 0x2000, 0x2001, 0x2002, 0x2003, 0x2004, 0x2005,
                   0x2006, 0x2007, 0x2008, 0x2009, 0x200A, 0x2028, 0x2029, 0x202F, 0x205F, 0x3000}
  {
  }

  function TrimStart(s: string): string {
    if s != [] && IsSpace(s[0]) then TrimStart(s[1..]) else s
  }

  function TrimEnd(s: string): string {
    if s != [] && IsSpace(s[|s| - 1]) then TrimEnd(s[..|s| - 1]) else s
  }

  function Trim(s: string): string { TrimEnd(TrimStart(s)) }

  predicate Trimmed(s: string) {
    s == [] || (!IsSpace(s[0]) && !IsSpace(s[|s| - 1]))
  }

  /** `t` is `s` without white space around it. */
  predicate Inside(s: string, t: string, from: nat) {
    && from + |t| <= |s| && t == s[from..from + |t|]
    && (forall k :: 0 <= k < from ==> IsSpace(s[k]))
    && (forall k :: from + |t| <= k < |s| ==> IsSpace(s[k]))
  }

  /** Trimming takes away only surrounding white space, and all of it. */
  lemma TrimIs(s: string)
    ensures Trimmed(Trim(s)) && exists from: nat :: Inside(s, Trim(s), from)
    ensures Trim(s) == s <==> Trimmed(s)
  {
    TrimStartIs(s);
    TrimEndIs(TrimStart(s));
    assert Inside(s, Trim(s), |s| - |TrimStart(s)|);
    if Trimmed(s) && s != [] { assert TrimStart(s) == s; }
  }

  lemma {:induction false} TrimStartIs(s: string)
    ensures TrimStart(s) == [] || !IsSpace(TrimStart(s)[0])
    ensures |TrimStart(s)| <= |s| && TrimStart(s) == s[|s| - |TrimStart(s)|..]
    ensures forall k :: 0 <= k < |s| - |TrimStart(s)| ==> IsSpace(s[k])
  {
    if s == [] || !IsSpace(s[0]) {
    } else {
      TrimStartIs(s[1..]);
      assert forall k :: 0 < k < |s| ==> s[k] == s[1..][k - 1];
    }
  }

  lemma {:induction false} TrimEndIs(s: string)
    ensures |TrimEnd(s)| <= |s| && TrimEnd(s) == s[..|TrimEnd(s)|]
    ensures TrimEnd(s) == [] || !IsSpace(TrimEnd(s)[|TrimEnd(s)| - 1])
    ensures forall k :: |TrimEnd(s)| <= k < |s| ==> IsSpace(s[k])
  {
    if s == [] || !IsSpace(s[|s| - 1]) {
    } else {
      TrimEndIs(s[..|s| - 1]);
      assert forall k :: 0 <= k < |s| - 1 ==> s[k] == s[..|s| - 1][k];
    }
  }

  // ---- splitting ------------------------------------------------------------------------

  /** The fields of the rest of a row, given the field so far. */
  function SplitFrom(rest: string, cur: string, inQuotes: bool): (fields: seq<string>)
    ensures |fields| >= 1
    decreases |rest|
  {
    if rest == [] then [Trim(cur)]
    else if rest[0] == QUOTE then
      if !inQuotes then SplitFrom(rest[1..], cur, true)
      else if |rest| > 1 && rest[1] == QUOTE then SplitFrom(rest[2..], cur + [QUOTE], true)
      else SplitFrom(rest[1..], cur, false)
    else if rest[0] == COMMA && !inQuotes then [Trim(cur)] + SplitFrom(rest[1..], "", false)
    else SplitFrom(rest[1..], cur + [rest[0]], inQuotes)
  }

  method SplitCsvRow(line: string) returns (fields: seq<string>)
    ensures fields == SplitFrom(line, "", false)
  {
    fields := [];
    var cur, inQuotes, i := "", false, 0;
    while i < |line|
      invariant i <= |line|
      invariant SplitFrom(line, "", false) == fields + SplitFrom(line[i..], cur, inQuotes)
    {
      var c := line[i];
      i := i + 1;
      assert line[i - 1..][1..] == line[i..] && (i < |line| ==> line[i - 1..][2..] == line[i + 1..]);
      if c == QUOTE && !inQuotes {
        inQuotes := true;
      } else if c == QUOTE {
        if i < |line| && line[i] == QUOTE {
          cur := cur + [QUOTE];
          i := i + 1;
        } else {
          inQuotes := false;
        }
      } else if c == COMMA && !inQuotes {
        fields := fields + [Trim(cur)];
        cur := "";
      } else {
        cur := cur + [c];
      }
    }
    assert line[i..] == [];
    fields := fields + [Trim(cur)];
  }

  // ---- printing -------------------------------------------------------------------------

  datatype Cell = Cell(text: string, quoted: bool)

  /** A field with a comma or a quote in it must be quoted. */
  predicate WellQuoted(cell: Cell) {
    cell.quoted || (QUOTE !in cell.text && COMMA !in cell.text)
  }

  function Doubled(text: string): string {
    if text == [] then [] else (if text[0] == QUOTE then [QUOTE, QUOTE] else [text[0]]) + Doubled(text[1..])
  }

  function PrintCell(cell: Cell): string {
    if cell.quoted then [QUOTE] + (Doubled(cell.text) + [QUOTE]) else cell.text
  }

  function PrintRow(cells: seq<Cell>): string
    requires cells != []
  {
    if |cells| == 1 then PrintCell(cells[0]) else PrintCell(cells[0]) + ([COMMA] + PrintRow(cells[1..]))
  }

  lemma {:induction false} PlainSplits(text: string, rest: string, cur: string)
    requires QUOTE !in text && COMMA !in text
    ensures SplitFrom(text + rest, cur, false) == SplitFrom(rest, cur + text, false)
    decreases |text|
  {
    if text == [] {
      assert text + rest == rest && cur + text == cur;
    } else {
      assert (text + rest)[1..] == text[1..] + rest;
      PlainSplits(text[1..], rest, cur + [text[0]]);
      assert cur + [text[0]] + text[1..] == cur + text;
    }
  }

  /** One character inside quotes: doubled if it is a quote, and read back once. */
  lemma QuotedOne(c: char, rest: string, cur: string)
    ensures SplitFrom((if c == QUOTE then [QUOTE, QUOTE] else [c]) + rest, cur, true) ==
      SplitFrom(rest, cur + [c], true)
  {
    var all := (if c == QUOTE then [QUOTE, QUOTE] else [c]) + rest;
    if c == QUOTE { assert all[2..] == rest; } else { assert all[1..] == rest; }
  }

  /** The closing quote. */
  lemma QuoteEnds(rest: string, cur: string)
    requires rest == [] || rest[0] != QUOTE
    ensures SplitFrom([QUOTE] + rest, cur, true) == SplitFrom(rest, cur, false)
  {
    assert ([QUOTE] + rest)[1..] == rest;
  }

  lemma {:induction false} QuotedSplits(text: string, rest: string, cur: string)
    requires rest == [] || rest[0] != QUOTE
    ensures SplitFrom(Doubled(text) + ([QUOTE] + rest), cur, true) == SplitFrom(rest, cur + text, false)
    decreases |text|
  {
    hide SplitFrom;
    var tail := [QUOTE] + rest;
    if text == [] {
      assert Doubled(text) + tail == tail && cur + text == cur;
      QuoteEnds(rest, cur);
    } else {
      var first := if text[0] == QUOTE then [QUOTE, QUOTE] else [text[0]];
      assert Doubled(text) + tail == first + (Doubled(text[1..]) + tail);
      QuotedOne(text[0], Doubled(text[1..]) + tail, cur);
      QuotedSplits(text[1..], rest, cur + [text[0]]);
      assert cur + [text[0]] + text[1..] == cur + text;
    }
  }

  lemma CellSplits(cell: Cell, rest: string)
    requires WellQuoted(cell) && (rest == [] || rest[0] == COMMA)
    ensures SplitFrom(PrintCell(cell) + rest, "", false) == SplitFrom(rest, cell.text, false)
  {
    if cell.quoted {
      var body := Doubled(cell.text) + ([QUOTE] + rest);
      assert PrintCell(cell) + rest == [QUOTE] + body;
      assert ([QUOTE] + body)[1..] == body;
      QuotedSplits(cell.text, rest, "");
      assert "" + cell.text == cell.text;
    } else {
      PlainSplits(cell.text, rest, "");
      assert "" + cell.text == cell.text;
    }
  }

  /** Any row, quoted in any allowed way, splits into its fields, trimmed. */
  lemma {:induction false} SplitPrinted(cells: seq<Cell>)
    requires cells != [] && forall i :: 0 <= i < |cells| ==> WellQuoted(cells[i])
    ensures SplitFrom(PrintRow(cells), "", false) == seq(|cells|, i requires 0 <= i < |cells| => Trim(cells[i].text))
    decreases |cells|
  {
    if |cells| == 1 {
      CellSplits(cells[0], []);
      assert PrintCell(cells[0]) + [] == PrintCell(cells[0]);
    } else {
      var rest := [COMMA] + PrintRow(cells[1..]);
      CellSplits(cells[0], rest);
      assert rest[1..] == PrintRow(cells[1..]);
      SplitPrinted(cells[1..]);
    }
  }

  /** The round trip is exact exactly when every field is already trimmed: quoting
      does not protect surrounding white space. */
  lemma RoundTripIffTrimmed(cells: seq<Cell>)
    requires cells != [] && forall i :: 0 <= i < |cells| ==> WellQuoted(cells[i])
    ensures SplitFrom(PrintRow(cells), "", false) == seq(|cells|, i requires 0 <= i < |cells| => cells[i].text)
            <==> forall i :: 0 <= i < |cells| ==> Trimmed(cells[i].text)
  {
    SplitPrinted(cells);
    forall i | 0 <= i < |cells| ensures Trim(cells[i].text) == cells[i].text <==> Trimmed(cells[i].text) {
      TrimIs(cells[i].text);
    }
    var split := SplitFrom(PrintRow(cells), "", false);
    var texts := seq(|cells|, i requires 0 <= i < |cells| => cells[i].text);
    if split == texts {
      forall i | 0 <= i < |cells| ensures Trimmed(cells[i].text) { assert split[i] == texts[i]; }
    }
  }
}
