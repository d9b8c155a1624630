/** The binary frames exchanged with the speech recogniser. */
module AsrFrames {
  import opened Text
  import opened Bytes

  type Nibble = x: int | 0 <= x < 16

  const ERROR_RESPONSE: Nibble := 15
  const GZIP: Nibble := 1

  predicate CarriesSequence(flags: Nibble) { flags == 1 || flags == 3 }

  datatype Result<T> = Ok(value: T) | TooShort | Truncated | OutOfRange

  /** What a frame says; an error code and a sequence number are mutually exclusive in a decoded frame. */
  datatype Frame = Frame(
    kind: Nibble,
    flags: Nibble,
    serialization: Nibble,
    compression: Nibble,
    sequence: Option<int>,
    errorCode: Option<int>,
    payload: seq<Byte>)

  /** Two nibbles in a byte. */
  function Nibbles(high: Nibble, low: Nibble): Byte { high as int * 16 + low }

  function Header(f: Frame): (r: seq<Byte>)
    ensures |r| == 4
  {
    [Nibbles(1, 1), Nibbles(f.kind, f.flags), Nibbles(f.serialization, f.compression), 0]
  }

  function SequenceBytes(sequence: Option<int>): seq<Byte>
    requires sequence.Some? ==> -TWO_31 <= sequence.value < TWO_31
  {
    if sequence.Some? then PackSigned(sequence.value) else []
  }

  /** Packing an out-of-range number raises. */
  predicate Encodable(f: Frame) {
    |f.payload| < TWO_32 && (f.sequence.Some? ==> -TWO_31 <= f.sequence.value < TWO_31)
  }

  function Encode(f: Frame): Result<seq<Byte>> {
    if Encodable(f) then Ok(Header(f) + SequenceBytes(f.sequence) + Pack32(|f.payload|) + f.payload) else OutOfRange
  }

  /** A slice that may run past the end. */
  function Slice(s: seq<Byte>, start: nat, length: nat): (r: seq<Byte>)
    ensures |r| <= length
    ensures start + length <= |s| ==> r == s[start..start + length]
    ensures |r| == length <==> length == 0 || start + length <= |s|
  {
    if start >= |s| then [] else if start + length <= |s| then s[start..start + length] else s[start..]
  }

  /** `inflate` undoes gzip, or fails; a failure keeps the raw payload. */
  function Inflated(f: Frame, inflate: seq<Byte> -> Option<seq<Byte>>): seq<Byte> {
    if f.compression == GZIP && f.payload != [] && inflate(f.payload).Some? then inflate(f.payload).value else f.payload
  }

  /** The size and the payload that begin at `cursor`. */
  function DecodeBody(f: Frame, raw: seq<Byte>, cursor: nat, inflate: seq<Byte> -> Option<seq<Byte>>): Result<Frame> {
    var size := Slice(raw, cursor, 4);
    if |size| < 4 then Truncated
    else
      var g := f.(payload := Slice(raw, cursor + 4, Unpack32(size)));
      Ok(g.(payload := Inflated(g, inflate)))
  }

  function Decode(raw: seq<Byte>, inflate: seq<Byte> -> Option<seq<Byte>>): Result<Frame> {
    if |raw| < 4 then TooShort
    else
      var f := Frame(raw[1] / 16, raw[1] % 16, raw[2] / 16, raw[2] % 16, None, None, []);
      var cursor := raw[0] % 16 * 4;
      if f.kind == ERROR_RESPONSE || CarriesSequence(f.flags) then
        var word := Slice(raw, cursor, 4);
        if |word| < 4 then Truncated
        else if f.kind == ERROR_RESPONSE then
          DecodeBody(f.(errorCode := Some(UnpackSigned(word))), raw, cursor + 4, inflate)
        else
          DecodeBody(f.(sequence := Some(UnpackSigned(word))), raw, cursor + 4, inflate)
      else
        DecodeBody(f, raw, cursor, inflate)
  }

  /** Bytes a frame must have before its payload. */
  function Needed(raw: seq<Byte>): nat
    requires |raw| >= 4
  {
    raw[0] % 16 * 4 + if raw[1] / 16 == ERROR_RESPONSE || CarriesSequence(raw[1] % 16) then 8 else 4
  }

  /** Decoding fails exactly on frames cut before their payload; a payload cut short goes unnoticed. */
  lemma DecodesIff(raw: seq<Byte>, inflate: seq<Byte> -> Option<seq<Byte>>)
    ensures Decode(raw, inflate).Ok? <==> |raw| >= 4 && |raw| >= Needed(raw)
    ensures Decode(raw, inflate).TooShort? <==> |raw| < 4
  {
  }

  // ----- the round trip -----------------------------------------------------

  /** The header read back: its length, then the four nibbles. */
  predicate HeaderOf(raw: seq<Byte>, f: Frame) {
    && |raw| >= 4 && raw[0] % 16 * 4 == 4
    && raw[1] / 16 == f.kind && raw[1] % 16 == f.flags
    && raw[2] / 16 == f.serialization && raw[2] % 16 == f.compression
  }

  lemma HeaderDecodes(f: Frame, tail: seq<Byte>)
    ensures HeaderOf(Header(f) + tail, f)
  {
  }

  /** What follows the header is found again behind it. */
  lemma SliceBehind(head: seq<Byte>, part: seq<Byte>, tail: seq<Byte>)
    ensures Slice(head + part + tail, |head|, |part|) == part
  {
    var s := head + part + tail;
    if part != [] {
      assert s[|head|..|head| + |part|] == part;
    }
  }

  lemma BodyDecodes(head: seq<Byte>, f: Frame, payload: seq<Byte>, inflate: seq<Byte> -> Option<seq<Byte>>)
    requires |payload| < TWO_32
    ensures DecodeBody(f, head + Pack32(|payload|) + payload, |head|, inflate)
         == Ok(f.(payload := Inflated(f.(payload := payload), inflate)))
  {
    SliceBehind(head, Pack32(|payload|), payload);
    UnpackPack(|payload|);
    var raw := head + Pack32(|payload|) + payload;
    SliceBehind(head + Pack32(|payload|), payload, []);
    assert head + Pack32(|payload|) + payload + [] == raw;
  }

  lemma SequencedDecodes(f: Frame, inflate: seq<Byte> -> Option<seq<Byte>>)
    requires Encodable(f) && f.errorCode.None? && f.sequence.Some?
    requires CarriesSequence(f.flags) && f.kind != ERROR_RESPONSE
    ensures Decode(Encode(f).value, inflate) == Ok(f.(payload := Inflated(f, inflate)))
  {
    var word := PackSigned(f.sequence.value);
    var rest := Pack32(|f.payload|) + f.payload;
    var raw := Encode(f).value;
    assert raw == Header(f) + (word + rest) && raw == Header(f) + word + rest;
    HeaderDecodes(f, word + rest);
    SliceBehind(Header(f), word, rest);
    UnpackPackSigned(f.sequence.value);
    BodyDecodes(Header(f) + word, f, f.payload, inflate);
  }

  lemma PlainDecodes(f: Frame, inflate: seq<Byte> -> Option<seq<Byte>>)
    requires Encodable(f) && f.errorCode.None? && f.sequence.None?
    requires !CarriesSequence(f.flags) && f.kind != ERROR_RESPONSE
    ensures Decode(Encode(f).value, inflate) == Ok(f.(payload := Inflated(f, inflate)))
  {
    var rest := Pack32(|f.payload|) + f.payload;
    var raw := Encode(f).value;
    assert raw == Header(f) + rest && raw == Header(f) + Pack32(|f.payload|) + f.payload;
    HeaderDecodes(f, rest);
    BodyDecodes(Header(f), f, f.payload, inflate);
  }

  /** A sequence number is read exactly where the flags announce one, an error code where the type does. */
  lemma DecodedShape(f: Frame, tail: seq<Byte>, inflate: seq<Byte> -> Option<seq<Byte>>)
    ensures var d := Decode(Header(f) + tail, inflate);
      d.Ok? ==> (d.value.errorCode.Some? <==> f.kind == ERROR_RESPONSE)
    ensures var d := Decode(Header(f) + tail, inflate);
      d.Ok? ==> (d.value.sequence.Some? <==> f.kind != ERROR_RESPONSE && CarriesSequence(f.flags))
  {
    HeaderDecodes(f, tail);
  }

  /** The decoder undoes the encoder exactly for frames that are not error frames, carry a sequence number just
      when their flags say so, and whose payload gzip leaves alone. */
  lemma RoundTripIff(f: Frame, inflate: seq<Byte> -> Option<seq<Byte>>)
    requires Encodable(f) && f.errorCode.None?
    ensures Decode(Encode(f).value, inflate) == Ok(f) <==>
      && f.kind != ERROR_RESPONSE
      && (f.sequence.Some? <==> CarriesSequence(f.flags))
      && Inflated(f, inflate) == f.payload
  {
    if f.kind == ERROR_RESPONSE || (f.sequence.Some? != CarriesSequence(f.flags)) {
      var tail := SequenceBytes(f.sequence) + Pack32(|f.payload|) + f.payload;
      assert Encode(f).value == Header(f) + tail;
      DecodedShape(f, tail, inflate);
    } else if f.sequence.Some? {
      SequencedDecodes(f, inflate);
    } else {
      PlainDecodes(f, inflate);
    }
  }
}
