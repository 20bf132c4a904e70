/** Length-framed payload files, read through a source that may return fewer
    bytes than asked for. */
module Framing {
  import opened NativeInput
  import opened CanonicalRecord
  import opened Wrappers

  function Framed(payload: seq<Byte>): seq<Byte> { Put(payload) }

  /** A file of frames. */
  function FramedAll(payloads: seq<seq<Byte>>): seq<Byte> {
    if payloads == [] then [] else Framed(payloads[0]) + FramedAll(payloads[1..])
  }

  /** A frame is the payload's length in four bytes, the lowest first, and the payload. */
  lemma FrameIs(payload: seq<Byte>)
    requires |payload| < 0x1_0000_0000
    ensures |Framed(payload)| == 4 + |payload| && StringAt(Framed(payload), 0, payload)
  {
    PutAt([], payload, []);
    assert [] + (Put(payload) + []) == Put(payload);
  }

  datatype Frame = End | Payload(bytes: seq<Byte>, rest: seq<Byte>) | Broken

  /** The first frame of the remaining bytes. */
  function FirstFrame(s: seq<Byte>): Frame {
    if s == [] then End
    else
      match TakeBytes(s, MAX_NATIVE_RECORD_BYTES)
      case Missing => Broken
      case Parsed(bytes, rest) => Payload(bytes, rest)
  }

  // ---- short reads -----------------------------------------------------------------------

  /** `grant` is the environment: how much a read at a position returns. */
  class ByteSource {
    const data: seq<Byte>
    const grant: nat -> nat
    var at: nat

    predicate Valid()
      reads this
    {
      at <= |data|
    }

    constructor (data: seq<Byte>, grant: nat -> nat)
      ensures Valid() && this.data == data && at == 0
    {
      this.data, this.grant, at := data, grant, 0;
    }

    /** Nothing only at the end of the data or when nothing was asked for. */
    method Read(wanted: nat) returns (bytes: seq<Byte>)
      requires Valid()
      modifies this`at
      ensures Valid() && old(at) <= at && bytes == data[old(at)..at]
      ensures |bytes| <= wanted && (bytes == [] <==> wanted == 0 || old(at) == |data|)
    {
      var left := |data| - at;
      var most := if wanted < left then wanted else left;
      var count := if grant(at) == 0 then 1 else grant(at);
      count := if count < most then count else most;
      bytes := data[at..at + count];
      at := at + count;
    }

    /** Read until the buffer is full or the data ends. */
    method ReadUpTo(wanted: nat) returns (bytes: seq<Byte>)
      requires Valid()
      modifies this`at
      ensures Valid() && old(at) <= at && bytes == data[old(at)..at]
      ensures |bytes| == if wanted <= |data| - old(at) then wanted else |data| - old(at)
    {
      bytes := [];
      while |bytes| < wanted
        invariant Valid() && old(at) <= at && bytes == data[old(at)..at] && |bytes| <= wanted
        decreases wanted - |bytes|
      {
        var more := Read(wanted - |bytes|);
        if more == [] { return; }
        bytes := bytes + more;
      }
    }
  }

  method WriteFramed(output: seq<Byte>, payload: seq<Byte>) returns (r: Option<seq<Byte>>)
    ensures r == if |payload| < TWO_32 then Some(output + Framed(payload)) else None
  {
    r := PutBytes(output, payload);
  }

  /** The next frame, however short the reads are. */
  method NextFrame(source: ByteSource) returns (r: Frame)
    requires source.Valid()
    modifies source
    ensures source.Valid()
    ensures r.End? <==> FirstFrame(old(source.data[source.at..])).End?
    ensures r.Broken? <==> FirstFrame(old(source.data[source.at..])).Broken?
    ensures r.Payload? ==> r == FirstFrame(old(source.data[source.at..])) && r.rest == source.data[source.at..]
  {
    ghost var s := source.data[source.at..];
    var header := source.ReadUpTo(4);
    if header == [] { return End; }
    if |header| < 4 { return Broken; }
    assert s[..4] == header && s[4..] == source.data[source.at..];
    var length := FromLe(header);
    if length > MAX_NATIVE_RECORD_BYTES { return Broken; }
    ghost var body := source.data[source.at..];
    var payload := source.ReadUpTo(length);
    if |payload| < length { return Broken; }
    assert body[..length] == payload && body[length..] == source.data[source.at..];
    return Payload(payload, source.data[source.at..]);
  }

  // ---- whole files -------------------------------------------------------------------------

  /** All frames of a file, or `None` if it is broken anywhere. */
  function Frames(s: seq<Byte>): Option<seq<seq<Byte>>>
    decreases |s|
  {
    match FirstFrame(s)
    case End => Some([])
    case Broken => None
    case Payload(bytes, rest) =>
      FirstFrameShrinks(s);
      After([bytes], Frames(rest))
  }

  function After(payloads: seq<seq<Byte>>, more: Option<seq<seq<Byte>>>): Option<seq<seq<Byte>>> {
    if more == None then None else Some(payloads + more.value)
  }

  lemma AfterAfter(a: seq<seq<Byte>>, b: seq<Byte>, more: Option<seq<seq<Byte>>>)
    ensures After(a, After([b], more)) == After(a + [b], more)
    ensures After([], more) == more && After(a, Some([])) == Some(a)
  {
    if more.Some? {
      assert a + ([b] + more.value) == a + [b] + more.value;
      assert [] + more.value == more.value;
    }
    assert a + [] == a;
  }

  lemma FirstFrameShrinks(s: seq<Byte>)
    ensures FirstFrame(s).Payload? ==> |FirstFrame(s).rest| < |s|
  {
  }

  method ReadFrames(source: ByteSource) returns (r: Option<seq<seq<Byte>>>)
    requires source.Valid() && source.at == 0
    modifies source
    ensures r == Frames(source.data)
  {
    hide FirstFrame;
    var payloads := [];
    assert source.data[0..] == source.data;
    AfterAfter([], [], Frames(source.data));
    while true
      invariant source.Valid()
      invariant Frames(source.data) == After(payloads, Frames(source.data[source.at..]))
      decreases |source.data| - source.at
    {
      ghost var s := source.data[source.at..];
      FirstFrameShrinks(s);
      var next := NextFrame(source);
      AfterAfter(payloads, if next.Payload? then next.bytes else [], Frames(source.data[source.at..]));
      if next.Broken? { return None; }
      if next.End? { return Some(payloads); }
      payloads := payloads + [next.bytes];
    }
  }

  /** Within the frame cap, what was written is what is read back. */
  lemma {:induction false} FramesReadBack(payloads: seq<seq<Byte>>)
    requires forall i :: 0 <= i < |payloads| ==> |payloads[i]| <= 8_388_608
    ensures Frames(FramedAll(payloads)) == Some(payloads)
    decreases |payloads|
  {
    if payloads == [] {
    } else {
      var rest := FramedAll(payloads[1..]);
      FramesReadBack(payloads[1..]);
      BytesRoundTrip(payloads[0], rest, MAX_NATIVE_RECORD_BYTES);
      assert FirstFrame(FramedAll(payloads)) == Payload(payloads[0], rest);
      assert payloads == [payloads[0]] + payloads[1..];
    }
  }

  /** And a file that reads at all was written from what it reads as. */
  lemma {:induction false} FramesWrittenFrom(s: seq<Byte>)
    requires Frames(s).Some?
    ensures FramedAll(Frames(s).value) == s
    ensures forall i :: 0 <= i < |Frames(s).value| ==> |Frames(s).value[i]| <= 8_388_608
    decreases |s|
  {
    hide TakeBytes, TakeNumber, Put;
    if s == [] {
    } else {
      BytesInverse(s, MAX_NATIVE_RECORD_BYTES);
      var first := FirstFrame(s);
      FirstFrameShrinks(s);
      FramesWrittenFrom(first.rest);
      assert Frames(s).value[1..] == Frames(first.rest).value;
    }
  }

  /** Records through encoding and framing and back. */
  lemma {:induction false} RecordsReadBack(records: seq<LoadRecord>)
    requires forall i :: 0 <= i < |records| ==> WithinCaps(records[i])
    ensures var payloads := seq(|records|, i requires 0 <= i < |records| => Encoded(records[i]));
      && Frames(FramedAll(payloads)) == Some(payloads)
      && forall i :: 0 <= i < |records| ==> Decode(payloads[i]) == Some(records[i])
  {
    var payloads := seq(|records|, i requires 0 <= i < |records| => Encoded(records[i]));
    forall i | 0 <= i < |records|
      ensures |payloads[i]| <= MAX_NATIVE_RECORD_BYTES && Decode(payloads[i]) == Some(records[i])
    {
      FitsFrame(records[i]);
      DecodeEncoded(records[i]);
    }
    FramesReadBack(payloads);
  }
}
