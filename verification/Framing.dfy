/** Cutting a byte stream that arrives in arbitrary chunks into blocks of one size. */
module Framing {
  import opened Text
  import opened Bytes

  /** The whole blocks of a stream. */
  function Blocks<T>(s: seq<T>, n: nat): seq<seq<T>>
    requires n > 0
    decreases |s|
  {
    if |s| < n then [] else [s[..n]] + Blocks(s[n..], n)
  }

  /** What is left after them. */
  function Rest<T>(s: seq<T>, n: nat): seq<T>
    requires n > 0
    decreases |s|
  {
    if |s| < n then s else Rest(s[n..], n)
  }

  /** The blocks and the rest are the stream itself, cut at every n-th place. */
  lemma {:induction false} BlocksCover<T>(s: seq<T>, n: nat)
    requires n > 0
    ensures Flatten(Blocks(s, n)) + Rest(s, n) == s && |Rest(s, n)| < n
    ensures forall k :: 0 <= k < |Blocks(s, n)| ==> |Blocks(s, n)[k]| == n
    decreases |s|
  {
    if |s| >= n {
      BlocksCover(s[n..], n);
      var later := Blocks(s[n..], n);
      assert Flatten([s[..n]] + later) == s[..n] + Flatten(later) by { assert ([s[..n]] + later)[1..] == later; }
      assert s == s[..n] + s[n..];
    }
  }

  /** No other cut into blocks of that size leaves less than one. */
  lemma {:induction false} BlocksUnique<T>(bs: seq<seq<T>>, r: seq<T>, n: nat)
    requires n > 0 && |r| < n && forall k :: 0 <= k < |bs| ==> |bs[k]| == n
    ensures Blocks(Flatten(bs) + r, n) == bs && Rest(Flatten(bs) + r, n) == r
    decreases |bs|
  {
    if bs == [] {
      assert Flatten(bs) + r == r;
    } else {
      var s := Flatten(bs) + r;
      assert s[..n] == bs[0] && s[n..] == Flatten(bs[1..]) + r;
      BlocksUnique(bs[1..], r, n);
    }
  }

  lemma {:induction false} BlocksAppend<T>(s: seq<T>, t: seq<T>, n: nat)
    requires n > 0
    ensures Blocks(s + t, n) == Blocks(s, n) + Blocks(Rest(s, n) + t, n)
    ensures Rest(s + t, n) == Rest(Rest(s, n) + t, n)
    decreases |s|
  {
    if |s| >= n {
      BlocksAppend(s[n..], t, n);
      assert (s + t)[..n] == s[..n] && (s + t)[n..] == s[n..] + t;
    }
  }

  // ----- playout: 10 ms frames ----------------------------------------------

  const FRAME_BYTES := 320
  const PREBUFFER_FRAMES := 20

  function Padded(s: seq<Byte>): (r: seq<Byte>)
    requires |s| <= FRAME_BYTES
    ensures |r| == FRAME_BYTES && s <= r && forall i :: |s| <= i < FRAME_BYTES ==> r[i] == 0
  {
    s + seq(FRAME_BYTES - |s|, _ => 0)
  }

  /** The frames of a whole utterance, its last one filled up with silence. */
  function Framed(s: seq<Byte>): seq<seq<Byte>> {
    BlocksCover(s, FRAME_BYTES);
    Blocks(s, FRAME_BYTES) + if Rest(s, FRAME_BYTES) == [] then [] else [Padded(Rest(s, FRAME_BYTES))]
  }

  /** Cuts one buffer; every frame goes to the queue, or to the cushion until that is full and let go at once. */
  method CutBuffer(buf: seq<Byte>, queue: seq<seq<Byte>>, cushion: seq<seq<Byte>>, primed: bool)
    returns (queue': seq<seq<Byte>>, cushion': seq<seq<Byte>>, primed': bool, leftover: seq<Byte>)
    requires primed ==> cushion == []
    ensures primed' ==> cushion' == []
    ensures queue' + cushion' == queue + cushion + Blocks(buf, FRAME_BYTES) && leftover == Rest(buf, FRAME_BYTES)
    ensures primed ==> primed'
    ensures !primed' ==> queue' == queue
  {
    queue', cushion', primed' := queue, cushion, primed;
    var off := 0;
    while off + FRAME_BYTES <= |buf|
      invariant off <= |buf| && (primed' ==> cushion' == [])
      invariant queue' + cushion' + Blocks(buf[off..], FRAME_BYTES) == queue + cushion + Blocks(buf, FRAME_BYTES)
      invariant Rest(buf[off..], FRAME_BYTES) == Rest(buf, FRAME_BYTES)
      invariant primed ==> primed'
      invariant !primed' ==> queue' == queue
    {
      var frame := buf[off..off + FRAME_BYTES];
      assert buf[off..][..FRAME_BYTES] == frame && buf[off..][FRAME_BYTES..] == buf[off + FRAME_BYTES..];
      assert queue' + cushion' + ([frame] + Blocks(buf[off + FRAME_BYTES..], FRAME_BYTES))
          == queue' + (cushion' + [frame]) + Blocks(buf[off + FRAME_BYTES..], FRAME_BYTES);
      off := off + FRAME_BYTES;
      if primed' {
        queue' := queue' + [frame];
      } else {
        cushion' := cushion' + [frame];
        if |cushion'| >= PREBUFFER_FRAMES {
          queue', cushion', primed' := queue' + cushion', [], true;
        }
      }
    }
    leftover := buf[off..];
  }

  /** An uninterrupted utterance is queued as its frames, however its bytes were chunked, cushion or not. */
  method FeedPlayout(chunks: seq<seq<Byte>>, ambient: bool) returns (queue: seq<seq<Byte>>)
    ensures queue == Framed(Flatten(chunks))
  {
    var leftover: seq<Byte> := [];
    var cushion: seq<seq<Byte>> := [];
    var primed := !ambient;
    queue := [];
    var i := 0;
    while i < |chunks|
      invariant i <= |chunks| && (primed ==> cushion == [])
      invariant queue + cushion == Blocks(Flatten(chunks[..i]), FRAME_BYTES)
      invariant leftover == Rest(Flatten(chunks[..i]), FRAME_BYTES)
    {
      FlattenStep(chunks, i);
      BlocksAppend(Flatten(chunks[..i]), chunks[i], FRAME_BYTES);
      queue, cushion, primed, leftover := CutBuffer(leftover + chunks[i], queue, cushion, primed);
      i := i + 1;
    }
    assert chunks[..i] == chunks;
    BlocksCover(Flatten(chunks), FRAME_BYTES);
    queue := queue + cushion;
    if leftover != [] {
      queue := queue + [Padded(leftover)];
    }
  }

  // ----- recognition: 100 ms packets ----------------------------------------

  /** What the sending loop holds after at most `rounds` rounds. */
  function Held(buf: seq<Byte>, target: nat, rounds: nat): seq<Byte> {
    if rounds == 0 || |buf| < target then buf else Held(buf[target..], target, rounds - 1)
  }

  lemma {:induction false} RoundsSuffice(buf: seq<Byte>, target: nat, rounds: nat)
    requires target > 0 && rounds >= |buf|
    ensures |Held(buf, target, rounds)| < target
    decreases rounds
  {
    if |buf| >= target { RoundsSuffice(buf[target..], target, rounds - 1); }
  }

  /** The sending loop of a chunk comes to its end exactly if packets are not empty. */
  lemma SendingEndsIff(buf: seq<Byte>, target: nat)
    ensures (exists rounds :: |Held(buf, target, rounds)| < target) <==> target > 0
  {
    if target > 0 { RoundsSuffice(buf, target, |buf|); }
  }

  lemma {:induction false} FlattenEmpties(chunks: seq<seq<Byte>>)
    requires forall k :: 0 <= k < |chunks| ==> chunks[k] == []
    ensures Flatten(chunks) == []
  {
    if chunks != [] { FlattenEmpties(chunks[1..]); }
  }

  /** Sends the packets of one chunk after what was held before. */
  method SendPackets(sent: seq<seq<Byte>>, buf: seq<Byte>, target: nat) returns (sent': seq<seq<Byte>>, held: seq<Byte>)
    requires target > 0
    ensures sent' == sent + Blocks(buf, target) && held == Rest(buf, target)
  {
    sent', held := sent, buf;
    while |held| >= target
      invariant sent' + Blocks(held, target) == sent + Blocks(buf, target) && Rest(held, target) == Rest(buf, target)
      decreases |held|
    {
      assert sent' + ([held[..target]] + Blocks(held[target..], target)) == sent' + [held[..target]] + Blocks(held[target..], target);
      sent', held := sent' + [held[..target]], held[target..];
    }
  }

  /** Sends the consecutive packets of the audio and holds back less than one. With empty packets it comes to an end
      only if there is no audio at all. */
  method BatchAudio(chunks: seq<seq<Byte>>, target: nat) returns (sent: seq<seq<Byte>>, held: seq<Byte>)
    requires target > 0 || forall k :: 0 <= k < |chunks| ==> chunks[k] == []
    ensures target > 0 ==> sent == Blocks(Flatten(chunks), target) && held == Rest(Flatten(chunks), target) && |held| < target
    ensures target == 0 ==> sent == [] && held == Flatten(chunks)
  {
    sent, held := [], [];
    var i := 0;
    while i < |chunks|
      invariant i <= |chunks| && (target == 0 ==> sent == [] && held == [])
      invariant target > 0 ==> sent == Blocks(Flatten(chunks[..i]), target) && held == Rest(Flatten(chunks[..i]), target)
    {
      FlattenStep(chunks, i);
      if chunks[i] != [] {
        BlocksAppend(Flatten(chunks[..i]), chunks[i], target);
        sent, held := SendPackets(sent, held + chunks[i], target);
      } else {
        assert Flatten(chunks[..i]) + chunks[i] == Flatten(chunks[..i]);
      }
      i := i + 1;
    }
    assert chunks[..i] == chunks;
    if target > 0 {
      BlocksCover(Flatten(chunks), target);
    } else {
      FlattenEmpties(chunks);
    }
  }

  /** The packet size of a sample rate. */
  function PacketBytes(sampleRate: nat): nat { sampleRate / 10 * 2 }

  /** Below 10 samples a second the packet is empty and the sending loop does not end. */
  lemma PacketsNeedARate(sampleRate: nat)
    ensures PacketBytes(sampleRate) > 0 <==> sampleRate >= 10
  {
  }
}
