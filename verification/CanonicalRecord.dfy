/** The canonical byte form of a load record: little-endian fields and
    length-prefixed byte strings, decoded with a cursor under size caps. */
module CanonicalRecord {
  import opened NativeInput
  import opened Wrappers

  const TWO_32: nat := 0x1_0000_0000
  const TWO_64: nat := 0x1_0000_0000_0000_0000
  const MAX_EXTERNAL_ID_BYTES: nat := 16 * 1024
  const MAX_OPAQUE_BYTES: nat := 4 * 1024 * 1024

  // ---- little-endian numbers -----------------------------------------------------------

  function Pow256(width: nat): nat {
    if width == 0 then 1 else 256 * Pow256(width - 1)
  }

  function Le(n: nat, width: nat): (bytes: seq<Byte>)
    ensures |bytes| == width
  {
    if width == 0 then [] else [n % 256] + Le(n / 256, width - 1)
  }

  function FromLe(bytes: seq<Byte>): nat {
    if bytes == [] then 0 else bytes[0] + 256 * FromLe(bytes[1..])
  }

  lemma {:induction false} LeRoundTrip(n: nat, width: nat)
    requires n < Pow256(width)
    ensures FromLe(Le(n, width)) == n
    decreases width
  {
    if width == 0 {
    } else {
      LeRoundTrip(n / 256, width - 1);
    }
  }

  lemma LowByte(b: Byte, n: nat)
    ensures (b + 256 * n) % 256 == b && (b + 256 * n) / 256 == n
  {
  }

  lemma {:induction false} FromLeRoundTrip(bytes: seq<Byte>)
    ensures Le(FromLe(bytes), |bytes|) == bytes && FromLe(bytes) < Pow256(|bytes|)
    decreases |bytes|
  {
    if bytes == [] {
    } else {
      FromLeRoundTrip(bytes[1..]);
      LowByte(bytes[0], FromLe(bytes[1..]));
    }
  }

  lemma Widths()
    ensures Pow256(4) == TWO_32 && Pow256(8) == TWO_64
  {
  }

  // ---- records ----------------------------------------------------------------------------

  datatype LoadRecord =
    | Node(externalId: seq<Byte>, typeId: nat, floatBits: nat, opaqueBytes: seq<Byte>)
    | Relationship(externalId: seq<Byte>, source: seq<Byte>, target: seq<Byte>, typeId: nat, floatBits: nat,
                   opaqueBytes: seq<Byte>)

  /** The fields fit their Rust types. */
  predicate Typed(r: LoadRecord) { r.typeId < TWO_32 && r.floatBits < TWO_64 }

  /** And every byte string is within the decoder's cap for it. */
  predicate WithinCaps(r: LoadRecord) {
    && r.typeId < 0x1_0000_0000 && r.floatBits < 0x1_0000_0000_0000_0000
    && |r.externalId| <= 16_384 && |r.opaqueBytes| <= 4_194_304
    && (r.Relationship? ==> |r.source| <= 16_384 && |r.target| <= 16_384)
  }

  function Put(value: seq<Byte>): seq<Byte> { Le(|value|, 4) + value }

  function Tail(r: LoadRecord): seq<Byte> {
    Le(r.typeId, 4) + (Le(r.floatBits, 8) + Put(r.opaqueBytes))
  }

  function Encoded(r: LoadRecord): seq<Byte> {
    match r
    case Node(id, _, _, _) => [0] + (Put(id) + Tail(r))
    case Relationship(id, source, target, _, _, _) => [1] + (Put(id) + (Put(source) + (Put(target) + Tail(r))))
  }

  /** A field longer than a 32-bit length can say is refused. */
  predicate Encodable(r: LoadRecord) {
    && |r.externalId| < TWO_32 && |r.opaqueBytes| < TWO_32
    && (r.Relationship? ==> |r.source| < TWO_32 && |r.target| < TWO_32)
  }

  // ---- the layout, byte by byte ------------------------------------------------------------------

  /** Four bytes from `k` on, the lowest first. */
  function U32At(s: seq<Byte>, k: nat): int
    requires k + 4 <= |s|
  {
    var a: int, b: int, c: int, d: int := s[k], s[k + 1], s[k + 2], s[k + 3];
    a + 0x100 * b + 0x1_0000 * c + 0x100_0000 * d
  }

  lemma FourBytes(n: nat)
    requires n < 0x1_0000_0000
    ensures |Le(n, 4)| == 4 && U32At(Le(n, 4), 0) == n
  {
    var n1 := n / 256;
    var n2 := n1 / 256;
    var n3 := n2 / 256;
    assert Le(n, 4) == [n % 256] + Le(n1, 3);
    assert Le(n1, 3) == [n1 % 256] + Le(n2, 2);
    assert Le(n2, 2) == [n2 % 256] + Le(n3, 1);
    assert Le(n3, 1) == [n3 % 256] + Le(n3 / 256, 0);
  }

  /** Eight bytes are the low four and then the high four. */
  lemma EightBytes(n: nat)
    requires n < 0x1_0000_0000_0000_0000
    ensures |Le(n, 8)| == 8 && U32At(Le(n, 8), 0) + 0x1_0000_0000 * U32At(Le(n, 8), 4) == n
  {
    var n1 := n / 256;
    var n2 := n1 / 256;
    var n3 := n2 / 256;
    var n4 := n3 / 256;
    assert Le(n, 8) == [n % 256] + Le(n1, 7);
    assert Le(n1, 7) == [n1 % 256] + Le(n2, 6);
    assert Le(n2, 6) == [n2 % 256] + Le(n3, 5);
    assert Le(n3, 5) == [n3 % 256] + Le(n4, 4);
    FourBytes(n4);
    assert Le(n, 8) == [n % 256, n1 % 256, n2 % 256, n3 % 256] + Le(n4, 4);
  }

  /** A byte string stands at `k`: its length in four bytes, and then itself. */
  predicate StringAt(s: seq<Byte>, k: nat, value: seq<Byte>) {
    k + 4 + |value| <= |s| && U32At(s, k) == |value| && s[k + 4..k + 4 + |value|] == value
  }

  lemma PutAt(before: seq<Byte>, value: seq<Byte>, after: seq<Byte>)
    requires |value| < 0x1_0000_0000
    ensures |Put(value)| == 4 + |value| && StringAt(before + (Put(value) + after), |before|, value)
  {
    FourBytes(|value|);
    var s := before + (Put(value) + after);
    assert forall i :: 0 <= i < 4 + |value| ==> s[|before| + i] == Put(value)[i];
    assert s[|before| + 4..|before| + 4 + |value|] == value;
  }

  /** The type id, the float bits and the opaque payload stand at `k`, and nothing after. */
  predicate TailAt(s: seq<Byte>, k: nat, r: LoadRecord) {
    && |s| == k + 16 + |r.opaqueBytes| && U32At(s, k) == r.typeId
    && U32At(s, k + 4) + 0x1_0000_0000 * U32At(s, k + 8) == r.floatBits
    && StringAt(s, k + 12, r.opaqueBytes)
  }

  lemma TailStands(before: seq<Byte>, r: LoadRecord)
    requires Typed(r) && |r.opaqueBytes| < 0x1_0000_0000
    ensures TailAt(before + Tail(r), |before|, r)
  {
    hide Le, Put;
    var s, k := before + Tail(r), |before|;
    FourBytes(r.typeId);
    EightBytes(r.floatBits);
    var head := before + (Le(r.typeId, 4) + Le(r.floatBits, 8));
    assert s == head + (Put(r.opaqueBytes) + []);
    PutAt(head, r.opaqueBytes, []);
    assert forall i :: 0 <= i < 4 ==> s[k + i] == Le(r.typeId, 4)[i];
    assert forall i :: 0 <= i < 8 ==> s[k + 4 + i] == Le(r.floatBits, 8)[i];
  }

  /** The layout of an encoded record: its kind, its ids each behind a length, the type id in
      four bytes and the float bits in eight, lowest first, and the opaque payload behind
      its length. */
  lemma LayoutIs(r: LoadRecord)
    requires Typed(r) && Encodable(r)
    ensures var e, n := Encoded(r), |r.externalId|;
      && |e| >= 1 && e[0] == (if r.Node? then 0 else 1) && StringAt(e, 1, r.externalId)
      && (r.Node? ==> TailAt(e, 5 + n, r))
      && (r.Relationship? ==>
            && StringAt(e, 5 + n, r.source) && StringAt(e, 9 + n + |r.source|, r.target)
            && TailAt(e, 13 + n + |r.source| + |r.target|, r))
  {
    hide Le, Put, Tail, TailAt, StringAt;
    var e := Encoded(r);
    var id := Put(r.externalId);
    if r.Node? {
      assert e == [0] + (id + Tail(r)) == ([0] + id) + Tail(r);
      PutAt([0], r.externalId, Tail(r));
      TailStands([0] + id, r);
    } else {
      var source, target := Put(r.source), Put(r.target);
      PutAt([1], r.externalId, source + (target + Tail(r)));
      assert e == ([1] + id) + (source + (target + Tail(r)));
      PutAt([1] + id, r.source, target + Tail(r));
      assert e == ([1] + id + source) + (target + Tail(r));
      PutAt([1] + id + source, r.target, Tail(r));
      assert e == ([1] + id + source + target) + Tail(r);
      TailStands([1] + id + source + target, r);
    }
  }

  // ---- decoding ---------------------------------------------------------------------------------

  datatype Parsed<T> = Parsed(value: T, rest: seq<Byte>) | Missing

  function TakeNumber(s: seq<Byte>, width: nat): Parsed<nat> {
    if |s| < width then Missing else Parsed(FromLe(s[..width]), s[width..])
  }

  function TakeBytes(s: seq<Byte>, cap: nat): Parsed<seq<Byte>> {
    match TakeNumber(s, 4)
    case Missing => Missing
    case Parsed(n, rest) => if n > cap || |rest| < n then Missing else Parsed(rest[..n], rest[n..])
  }

  /** The type id, float bits and opaque payload, and then nothing more. */
  function TakeTail(s: seq<Byte>): Parsed<(nat, nat, seq<Byte>)> {
    match TakeNumber(s, 4)
    case Missing => Missing
    case Parsed(typeId, s1) =>
      match TakeNumber(s1, 8)
      case Missing => Missing
      case Parsed(floatBits, s2) =>
        match TakeBytes(s2, MAX_OPAQUE_BYTES)
        case Missing => Missing
        case Parsed(bytes, s3) => if s3 != [] then Missing else Parsed((typeId, floatBits, bytes), [])
  }

  function Decode(payload: seq<Byte>): Option<LoadRecord> {
    if payload == [] then None
    else
      match TakeBytes(payload[1..], MAX_EXTERNAL_ID_BYTES)
      case Missing => None
      case Parsed(id, s1) =>
        if payload[0] == 0 then
          match TakeTail(s1)
          case Missing => None
          case Parsed(t, _) => Some(Node(id, t.0, t.1, t.2))
        else if payload[0] == 1 then
          match TakeBytes(s1, MAX_EXTERNAL_ID_BYTES)
          case Missing => None
          case Parsed(source, s2) =>
            match TakeBytes(s2, MAX_EXTERNAL_ID_BYTES)
            case Missing => None
            case Parsed(target, s3) =>
              match TakeTail(s3)
              case Missing => None
              case Parsed(t, _) => Some(Relationship(id, source, target, t.0, t.1, t.2))
        else None
  }

  // ---- the decoder undoes the encoder, and only it -------------------------------------------------

  lemma NumberRoundTrip(n: nat, width: nat, rest: seq<Byte>)
    requires n < Pow256(width)
    ensures TakeNumber(Le(n, width) + rest, width) == Parsed(n, rest)
  {
  }

  lemma NumberInverse(s: seq<Byte>, width: nat)
    ensures TakeNumber(s, width).Parsed? ==>
      && s == Le(TakeNumber(s, width).value, width) + TakeNumber(s, width).rest
      && TakeNumber(s, width).value < Pow256(width)
  {
    if |s| >= width {
      FromLeRoundTrip(s[..width]);
      assert s == s[..width] + s[width..];
    }
  }

  /** Both directions for a length-prefixed field, error case included. */
  lemma BytesRoundTrip(value: seq<Byte>, rest: seq<Byte>, cap: nat)
    requires |value| < TWO_32
    ensures TakeBytes(Put(value) + rest, cap) == if |value| <= cap then Parsed(value, rest) else Missing
  {
    Widths();
    assert Put(value) + rest == Le(|value|, 4) + (value + rest);
    NumberRoundTrip(|value|, 4, value + rest);
    assert (value + rest)[..|value|] == value && (value + rest)[|value|..] == rest;
  }

  lemma BytesInverse(s: seq<Byte>, cap: nat)
    ensures TakeBytes(s, cap).Parsed? ==>
      s == Put(TakeBytes(s, cap).value) + TakeBytes(s, cap).rest && |TakeBytes(s, cap).value| <= cap
  {
    NumberInverse(s, 4);
    if TakeBytes(s, cap).Parsed? {
      var n, rest := TakeNumber(s, 4).value, TakeNumber(s, 4).rest;
      assert rest == rest[..n] + rest[n..];
      assert Put(rest[..n]) + rest[n..] == Le(n, 4) + (rest[..n] + rest[n..]);
    }
  }

  lemma TailRoundTrip(r: LoadRecord)
    requires Typed(r) && |r.opaqueBytes| < TWO_32
    ensures TakeTail(Tail(r)) ==
      if |r.opaqueBytes| <= MAX_OPAQUE_BYTES then Parsed((r.typeId, r.floatBits, r.opaqueBytes), []) else Missing
  {
    Widths();
    NumberRoundTrip(r.typeId, 4, Le(r.floatBits, 8) + Put(r.opaqueBytes));
    NumberRoundTrip(r.floatBits, 8, Put(r.opaqueBytes));
    BytesRoundTrip(r.opaqueBytes, [], MAX_OPAQUE_BYTES);
    assert Put(r.opaqueBytes) + [] == Put(r.opaqueBytes);
  }

  lemma TailInverse(s: seq<Byte>)
    requires TakeTail(s).Parsed?
    ensures var t := TakeTail(s).value;
      && s == Le(t.0, 4) + (Le(t.1, 8) + Put(t.2))
      && t.0 < TWO_32 && t.1 < TWO_64 && |t.2| <= MAX_OPAQUE_BYTES
  {
    hide TakeNumber, TakeBytes, Put, Le;
    Widths();
    NumberInverse(s, 4);
    var s1 := TakeNumber(s, 4).rest;
    NumberInverse(s1, 8);
    var s2 := TakeNumber(s1, 8).rest;
    BytesInverse(s2, MAX_OPAQUE_BYTES);
    assert Put(TakeBytes(s2, MAX_OPAQUE_BYTES).value) + [] == Put(TakeBytes(s2, MAX_OPAQUE_BYTES).value);
  }

  /** What was encoded decodes to itself exactly when it is within the caps. */
  lemma DecodeEncoded(r: LoadRecord)
    requires Typed(r) && Encodable(r)
    ensures Decode(Encoded(r)) == if WithinCaps(r) then Some(r) else None
  {
    hide TakeNumber, TakeBytes, TakeTail, Put, Tail;
    TailRoundTrip(r);
    match r
    case Node(id, _, _, _) =>
      assert Encoded(r)[1..] == Put(id) + Tail(r);
      BytesRoundTrip(id, Tail(r), MAX_EXTERNAL_ID_BYTES);
    case Relationship(id, source, target, _, _, _) =>
      var s2 := Put(target) + Tail(r);
      var s1 := Put(source) + s2;
      assert Encoded(r)[1..] == Put(id) + s1;
      BytesRoundTrip(id, s1, MAX_EXTERNAL_ID_BYTES);
      BytesRoundTrip(source, s2, MAX_EXTERNAL_ID_BYTES);
      BytesRoundTrip(target, Tail(r), MAX_EXTERNAL_ID_BYTES);
  }

  /** Every accepted payload is the encoding of the record it decodes to. */
  lemma EncodeDecoded(payload: seq<Byte>)
    requires Decode(payload).Some?
    ensures WithinCaps(Decode(payload).value) && Encoded(Decode(payload).value) == payload
  {
    hide TakeNumber, TakeBytes, TakeTail, Put, Le;
    assert payload == [payload[0]] + payload[1..];
    BytesInverse(payload[1..], MAX_EXTERNAL_ID_BYTES);
    var s1 := TakeBytes(payload[1..], MAX_EXTERNAL_ID_BYTES).rest;
    if payload[0] == 0 {
      TailInverse(s1);
    } else {
      BytesInverse(s1, MAX_EXTERNAL_ID_BYTES);
      var s2 := TakeBytes(s1, MAX_EXTERNAL_ID_BYTES).rest;
      BytesInverse(s2, MAX_EXTERNAL_ID_BYTES);
      TailInverse(TakeBytes(s2, MAX_EXTERNAL_ID_BYTES).rest);
    }
  }

  /** Every record within the caps fits one frame. */
  lemma FitsFrame(r: LoadRecord)
    requires WithinCaps(r)
    ensures |Encoded(r)| <= MAX_NATIVE_RECORD_BYTES
  {
  }

  // ---- the encoder and the cursor decoder ---------------------------------------------------------

  method PutBytes(output: seq<Byte>, value: seq<Byte>) returns (r: Option<seq<Byte>>)
    ensures r == if |value| < TWO_32 then Some(output + Put(value)) else None
  {
    if |value| >= TWO_32 { return None; }
    var out := output + Le(|value|, 4);
    out := out + value;
    assert out == output + Put(value);
    return Some(out);
  }

  method EncodeCanonicalRecord(r: LoadRecord) returns (payload: Option<seq<Byte>>)
    requires Typed(r)
    ensures payload == if Encodable(r) then Some(Encoded(r)) else None
  {
    hide Put, Le;
    payload := PutBytes([if r.Node? then 0 else 1], r.externalId);
    if payload == None { return; }
    if r.Relationship? {
      payload := PutBytes(payload.value, r.source);
      if payload == None { return; }
      payload := PutBytes(payload.value, r.target);
      if payload == None { return; }
    }
    payload := PutBytes(payload.value + Le(r.typeId, 4) + Le(r.floatBits, 8), r.opaqueBytes);
    if payload == None { return; }
    assert payload.value == Encoded(r);
  }

  method TakeBytesAt(bytes: seq<Byte>, cursor: nat, cap: nat) returns (value: Option<seq<Byte>>, next: nat)
    requires cursor <= |bytes|
    ensures cursor <= next <= |bytes|
    ensures TakeBytes(bytes[cursor..], cap) == if value.Some? then Parsed(value.value, bytes[next..]) else Missing
  {
    if cursor + 4 > |bytes| { return None, cursor; }
    assert bytes[cursor..][..4] == bytes[cursor..cursor + 4] && bytes[cursor..][4..] == bytes[cursor + 4..];
    var length := FromLe(bytes[cursor..cursor + 4]);
    next := cursor + 4;
    if length > cap || next + length > |bytes| { return None, next; }
    value := Some(bytes[next..next + length]);
    assert bytes[next..][..length] == bytes[next..next + length] && bytes[next..][length..] == bytes[next + length..];
    next := next + length;
  }

  method TakeNumberAt(bytes: seq<Byte>, cursor: nat, width: nat) returns (value: Option<nat>, next: nat)
    requires cursor <= |bytes|
    ensures cursor <= next <= |bytes|
    ensures TakeNumber(bytes[cursor..], width) == if value.Some? then Parsed(value.value, bytes[next..]) else Missing
  {
    if cursor + width > |bytes| { return None, cursor; }
    next := cursor + width;
    assert bytes[cursor..][..width] == bytes[cursor..next] && bytes[cursor..][width..] == bytes[next..];
    value := Some(FromLe(bytes[cursor..next]));
  }

  method DecodeCanonicalRecord(payload: seq<Byte>) returns (r: Option<LoadRecord>)
    ensures r == Decode(payload)
  {
    hide TakeNumber, TakeBytes;
    if payload == [] { return None; }
    var kind, cursor := payload[0], 1;
    var id, source, target, bytes: Option<seq<Byte>>;
    var typeId, floatBits: Option<nat>;
    id, cursor := TakeBytesAt(payload, cursor, MAX_EXTERNAL_ID_BYTES);
    if id == None || kind > 1 { return None; }
    source, target := Some([]), Some([]);
    if kind == 1 {
      source, cursor := TakeBytesAt(payload, cursor, MAX_EXTERNAL_ID_BYTES);
      if source == None { return None; }
      target, cursor := TakeBytesAt(payload, cursor, MAX_EXTERNAL_ID_BYTES);
      if target == None { return None; }
    }
    typeId, cursor := TakeNumberAt(payload, cursor, 4);
    if typeId == None { return None; }
    floatBits, cursor := TakeNumberAt(payload, cursor, 8);
    if floatBits == None { return None; }
    bytes, cursor := TakeBytesAt(payload, cursor, MAX_OPAQUE_BYTES);
    if bytes == None || cursor != |payload| { return None; }
    return Some(if kind == 0 then Node(id.value, typeId.value, floatBits.value, bytes.value)
                else Relationship(id.value, source.value, target.value, typeId.value, floatBits.value, bytes.value));
  }
}
