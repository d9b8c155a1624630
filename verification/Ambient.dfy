/** Sample arithmetic of the outbound audio: mixing, fading, the seamless background loop and its reader. Samples
    are integers, gains reals; conversion back to a sample truncates towards zero. */
module Ambient {
  import opened Text

  const FRAME_SAMPLES := 160
  const CROSSFADE_SAMPLES := 320

  predicate Int16(x: int) { -32768 <= x <= 32767 }

  predicate Pcm(s: seq<int>) {
    forall i :: 0 <= i < |s| ==> Int16(s[i])
  }

  function Truncate(v: real): int {
    if v >= 0.0 then v.Floor else -((-v).Floor)
  }

  function Clip16(v: real): int {
    Truncate(if v < -32768.0 then -32768.0 else if v > 32767.0 then 32767.0 else v)
  }

  lemma TruncateKeepsBounds(v: real, lo: int, hi: int)
    requires lo as real <= v <= hi as real
    ensures lo <= Truncate(v) <= hi
  {
  }

  lemma Clip16Bounds(v: real)
    ensures Int16(Clip16(v))
    ensures -32768.0 <= v <= 32767.0 ==> Clip16(v) == Truncate(v)
  {
    var c := if v < -32768.0 then -32768.0 else if v > 32767.0 then 32767.0 else v;
    TruncateKeepsBounds(c, -32768, 32767);
  }

  lemma ClipOfSample(x: int)
    requires Int16(x)
    ensures Clip16(x as real) == x
  {
  }

  // ----- mixing -------------------------------------------------------------

  function Mixed(tts: int, bg: int, gain: real): int {
    Clip16(tts as real + bg as real * gain)
  }

  /** Adds the scaled background with saturation, as far as both frames reach. */
  method MixFrame(tts: seq<int>, bg: seq<int>, gain: real) returns (out: seq<int>)
    ensures |out| == |tts|
    ensures gain <= 0.0 ==> out == tts
    ensures gain > 0.0 ==> forall i :: 0 <= i < |tts| ==> out[i] == if i < |bg| then Mixed(tts[i], bg[i], gain) else tts[i]
  {
    out := tts;
    if gain <= 0.0 || bg == [] {
      return;
    }
    var n := if |tts| < |bg| then |tts| else |bg|;
    var i := 0;
    while i < n
      invariant i <= n && |out| == |tts|
      invariant forall j :: 0 <= j < i ==> out[j] == Mixed(tts[j], bg[j], gain)
      invariant forall j :: i <= j < |tts| ==> out[j] == tts[j]
    {
      out := out[i := Mixed(out[i], bg[i], gain)];
      i := i + 1;
    }
  }

  /** The mix never leaves the sample range, follows the unclipped sum while that fits, and is the speech
      itself over a silent background. */
  lemma MixSaturates(tts: int, bg: int, gain: real)
    requires Int16(tts)
    ensures Int16(Mixed(tts, bg, gain))
    ensures bg == 0 ==> Mixed(tts, bg, gain) == tts
    ensures tts as real + bg as real * gain > 32767.0 ==> Mixed(tts, bg, gain) == 32767
    ensures tts as real + bg as real * gain < -32768.0 ==> Mixed(tts, bg, gain) == -32768
  {
    Clip16Bounds(tts as real + bg as real * gain);
    if bg == 0 { ClipOfSample(tts); }
  }

  // ----- fading -------------------------------------------------------------

  function Gain(idx: nat, total: nat): real
    requires total > 1
  {
    1.0 - idx as real / (total - 1) as real
  }

  function FadedSample(x: int, idx: nat, total: nat): int
    requires total > 1
  {
    Clip16(Scaled(x as real, Gain(idx, total)))
  }

  function Scaled(v: real, gain: real): real { v * gain }

  /** The whole fade, regardless of frames. */
  function Faded(s: seq<int>): (r: seq<int>)
    ensures |r| == |s|
  {
    if |s| <= 1 then s else seq(|s|, i requires 0 <= i < |s| => FadedSample(s[i], i, |s|))
  }

  lemma Up(x: real, lo: real, hi: real)
    requires lo <= hi && x >= 0.0
    ensures x * lo <= x * hi
  {
  }

  lemma Down(x: real, lo: real, hi: real)
    requires lo <= hi && x <= 0.0
    ensures x * hi <= x * lo
  {
  }

  /** `b` is no further from zero than `a`, nor `a` than `v`, all on the same side. */
  predicate Shrinking(v: real, a: real, b: real) {
    0.0 <= b <= a <= v || v <= a <= b <= 0.0
  }

  predicate Falling(g: real, h: real) { 0.0 <= h <= g <= 1.0 }

  lemma ScalingShrinks(v: real, g: real, h: real)
    requires Falling(g, h)
    ensures Shrinking(v, v * g, v * h)
  {
    if v >= 0.0 {
      Up(v, 0.0, h);
      Up(v, h, g);
      Up(v, g, 1.0);
    } else {
      Down(v, 0.0, h);
      Down(v, h, g);
      Down(v, g, 1.0);
    }
  }

  lemma QuotientOrder(a: real, b: real, d: real)
    requires a <= b && d > 0.0
    ensures a / d <= b / d
  {
  }

  lemma QuotientBounds(a: real, d: real)
    requires 0.0 <= a <= d && d > 0.0
    ensures 0.0 <= a / d <= 1.0
    ensures a == 0.0 ==> a / d == 0.0
    ensures a == d ==> a / d == 1.0
  {
  }

  lemma GainFalls(i: nat, j: nat, total: nat)
    requires i <= j < total && total > 1
    ensures Falling(Gain(i, total), Gain(j, total))
    ensures i == 0 ==> Gain(i, total) == 1.0
    ensures j == total - 1 ==> Gain(j, total) == 0.0
  {
    var d := (total - 1) as real;
    QuotientOrder(i as real, j as real, d);
    QuotientBounds(i as real, d);
    QuotientBounds(j as real, d);
  }

  function Magnitude(x: int): nat { if x < 0 then -x else x }

  predicate Quieting(x: int, y: int, z: int) { Magnitude(z) <= Magnitude(y) <= Magnitude(x) }

  /** At a later position the same sample is never louder; at the first it is unchanged, at the last silent. */
  lemma FadeFalls(x: int, i: nat, j: nat, total: nat)
    requires Int16(x) && i <= j < total && total > 1
    ensures Quieting(x, FadedSample(x, i, total), FadedSample(x, j, total))
  {
    GainFalls(i, j, total);
    ScaledQuiets(x, Gain(i, total), Gain(j, total));
  }

  lemma ScaledShrinks(v: real, g: real, h: real)
    requires Falling(g, h)
    ensures Shrinking(v, Scaled(v, g), Scaled(v, h))
  {
    ScalingShrinks(v, g, h);
  }

  lemma ScaledQuiets(x: int, g: real, h: real)
    requires Int16(x) && Falling(g, h)
    ensures Quieting(x, Clip16(Scaled(x as real, g)), Clip16(Scaled(x as real, h)))
  {
    ScaledShrinks(x as real, g, h);
    ShrinkingClips(x as real, Scaled(x as real, g), Scaled(x as real, h), x);
  }

  lemma ShrinkingClips(v: real, a: real, b: real, x: int)
    requires Int16(x) && v == x as real && Shrinking(v, a, b)
    ensures Quieting(x, Clip16(a), Clip16(b))
  {
  }

  lemma FadeEnds(x: int, i: nat, j: nat, total: nat)
    requires Int16(x) && i <= j < total && total > 1
    ensures i == 0 ==> FadedSample(x, i, total) == x
    ensures j == total - 1 ==> FadedSample(x, j, total) == 0
  {
    GainFalls(i, j, total);
    ClipOfSample(x);
    ClipOfSample(0);
  }

  /** A run of two samples or more starts as it was, gets nowhere louder and ends silent; a single sample is left alone. */
  lemma FadeShape(s: seq<int>, i: nat)
    requires Pcm(s) && i < |s|
    ensures Magnitude(Faded(s)[i]) <= Magnitude(s[i]) && Faded(s)[0] == s[0]
    ensures Faded(s)[|s| - 1] == 0 <==> |s| > 1 || s[0] == 0
  {
    if |s| > 1 {
      FadeFalls(s[i], i, i, |s|);
      FadeEnds(s[0], 0, 0, |s|);
      FadeEnds(s[|s| - 1], 0, |s| - 1, |s|);
    }
  }

  method CountSamples(frames: seq<seq<int>>) returns (total: nat)
    ensures total == |Flatten(frames)|
  {
    total := 0;
    var k := 0;
    while k < |frames|
      invariant k <= |frames| && total == |Flatten(frames[..k])|
    {
      FlattenStep(frames, k);
      total := total + |frames[k]|;
      k := k + 1;
    }
    assert frames[..|frames|] == frames;
  }

  /** Ramps a run of frames down to silence. However the samples are cut into frames, the fade is the same. */
  method ApplyFadeout(frames: seq<seq<int>>) returns (out: seq<seq<int>>)
    ensures |out| == |frames| && forall k :: 0 <= k < |frames| ==> |out[k]| == |frames[k]|
    ensures Flatten(out) == Faded(Flatten(frames))
  {
    var total := CountSamples(frames);
    if total <= 1 {
      return frames;
    }
    out := [];
    var idx := 0;
    var k := 0;
    while k < |frames|
      invariant k <= |frames| && |out| == k && idx == |Flatten(frames[..k])| <= total
      invariant forall j :: 0 <= j < k ==> |out[j]| == |frames[j]|
      invariant Flatten(out) == Faded(Flatten(frames))[..idx]
    {
      FlattenStep(frames, k);
      FlattenPrefix(frames, k + 1);
      var faded := FadeFrame(frames[k], idx, total);
      FadedStretch(Flatten(frames), frames[k], faded, idx);
      FlattenOne(out, faded);
      out := out + [faded];
      idx := idx + |faded|;
      k := k + 1;
    }
    assert frames[..|frames|] == frames;
  }

  lemma FadedStretch(all: seq<int>, frame: seq<int>, faded: seq<int>, idx: nat)
    requires |all| > 1 && |faded| == |frame| && idx + |frame| <= |all| && all[idx..idx + |frame|] == frame
    requires forall j :: 0 <= j < |frame| ==> faded[j] == FadedSample(frame[j], idx + j, |all|)
    ensures Faded(all)[..idx + |faded|] == Faded(all)[..idx] + faded
  {
    forall j | 0 <= j < |frame| ensures Faded(all)[idx + j] == faded[j] {
      assert all[idx + j] == frame[j];
    }
  }

  method FadeFrame(frame: seq<int>, start: nat, total: nat) returns (out: seq<int>)
    requires start + |frame| <= total && total > 1
    ensures |out| == |frame| && forall j :: 0 <= j < |frame| ==> out[j] == FadedSample(frame[j], start + j, total)
  {
    out := frame;
    var j := 0;
    while j < |frame|
      invariant j <= |frame| == |out|
      invariant forall i :: 0 <= i < j ==> out[i] == FadedSample(frame[i], start + i, total)
      invariant forall i :: j <= i < |frame| ==> out[i] == frame[i]
    {
      out := out[j := FadedSample(out[j], start + j, total)];
      j := j + 1;
    }
  }

  // ----- the background loop ------------------------------------------------

  function Weight(i: nat, n: nat): (t: real)
    ensures i < n ==> 0.0 < t < 1.0
  {
    (i + 1) as real / (n + 1) as real
  }

  function Mean(a: real, b: real, t: real): real {
    a * (1.0 - t) + b * t
  }

  function CrossfadedSample(a: int, b: int, i: nat, n: nat): int {
    Clip16(Mean(a as real, b as real, Weight(i, n)))
  }

  method LinearCrossfade(a: seq<int>, b: seq<int>) returns (out: seq<int>)
    ensures |out| == if |a| < |b| then |a| else |b|
    ensures forall i :: 0 <= i < |out| ==> out[i] == CrossfadedSample(a[i], b[i], i, |out|)
  {
    var n := if |a| < |b| then |a| else |b|;
    out := [];
    var i := 0;
    while i < n
      invariant i <= n && |out| == i
      invariant forall j :: 0 <= j < i ==> out[j] == CrossfadedSample(a[j], b[j], j, n)
    {
      out := out + [CrossfadedSample(a[i], b[i], i, n)];
      i := i + 1;
    }
  }

  predicate Within(v: real, lo: real, hi: real) { lo <= v <= hi }

  /** `m` is `a` moved by the share `t` of `d`. */
  predicate Offset(m: real, a: real, d: real, t: real) { m == a + d * t }

  lemma MeanOffset(a: real, b: real, t: real)
    ensures Offset(Mean(a, b, t), a, b - a, t)
  {
  }

  lemma OffsetWithin(m: real, a: real, b: real, d: real, t: real)
    requires Offset(m, a, d, t) && d == b - a && 0.0 <= t <= 1.0
    ensures Within(m, if a < b then a else b, if a < b then b else a)
  {
    ScalingShrinks(d, t, 0.0);
  }

  /** A weighted mean lies between its ends. */
  lemma MeanWithin(a: real, b: real, t: real)
    requires 0.0 <= t <= 1.0
    ensures Within(Mean(a, b, t), if a < b then a else b, if a < b then b else a)
  {
    MeanOffset(a, b, t);
    OffsetWithin(Mean(a, b, t), a, b, b - a, t);
  }

  /** Each seam sample lies between the two it joins, so the clipping never fires. */
  lemma SeamBetween(a: int, b: int, i: nat, n: nat)
    requires Int16(a) && Int16(b) && i < n
    ensures CrossfadedSample(a, b, i, n) == Truncate(Mean(a as real, b as real, Weight(i, n)))
    ensures (if a < b then a else b) <= CrossfadedSample(a, b, i, n) <= (if a < b then b else a)
  {
    MeanWithin(a as real, b as real, Weight(i, n));
    WithinClips(Mean(a as real, b as real, Weight(i, n)), if a < b then a else b, if a < b then b else a);
  }

  lemma WithinClips(v: real, lo: int, hi: int)
    requires Int16(lo) && Int16(hi) && Within(v, lo as real, hi as real)
    ensures Clip16(v) == Truncate(v) && lo <= Truncate(v) <= hi
  {
  }

  function Aligned(n: nat): nat { n / FRAME_SAMPLES * FRAME_SAMPLES }

  /** Folds the tail of the recording into its head, so that it can be read round and round. */
  method MakeSeamless(pcm: seq<int>) returns (looped: seq<int>)
    ensures Aligned(|pcm|) <= 2 * CROSSFADE_SAMPLES ==> looped == pcm[..Aligned(|pcm|)]
    ensures Aligned(|pcm|) > 2 * CROSSFADE_SAMPLES ==>
      |looped| == Aligned(|pcm|) - CROSSFADE_SAMPLES && |looped| % FRAME_SAMPLES == 0 && Seamless(pcm, looped)
  {
    var whole := pcm[..Aligned(|pcm|)];
    if |whole| <= 2 * CROSSFADE_SAMPLES {
      return whole;
    }
    var head := whole[..CROSSFADE_SAMPLES];
    var tail := whole[|whole| - CROSSFADE_SAMPLES..];
    var body := whole[CROSSFADE_SAMPLES..|whole| - CROSSFADE_SAMPLES];
    var seam := LinearCrossfade(tail, head);
    looped := body + seam;
    assert |looped| == |whole| - CROSSFADE_SAMPLES;
    AlignedDifference(|pcm|);
    looped := looped[..Aligned(|looped|)];
  }

  lemma AlignedDifference(n: nat)
    requires Aligned(n) > 2 * CROSSFADE_SAMPLES
    ensures (Aligned(n) - CROSSFADE_SAMPLES) % FRAME_SAMPLES == 0
    ensures Aligned(Aligned(n) - CROSSFADE_SAMPLES) == Aligned(n) - CROSSFADE_SAMPLES
  {
    var k := n / FRAME_SAMPLES;
    assert Aligned(n) - CROSSFADE_SAMPLES == (k - 2) * FRAME_SAMPLES;
  }

  /** The loop is the recording from the end of its head to the start of its tail, then the tail faded into the head. */
  predicate Seamless(pcm: seq<int>, looped: seq<int>)
    requires Aligned(|pcm|) > 2 * CROSSFADE_SAMPLES && |looped| == Aligned(|pcm|) - CROSSFADE_SAMPLES
  {
    var bodyLength := Aligned(|pcm|) - 2 * CROSSFADE_SAMPLES;
    && (forall i :: 0 <= i < bodyLength ==> looped[i] == pcm[CROSSFADE_SAMPLES + i])
    && (forall i :: 0 <= i < CROSSFADE_SAMPLES ==>
          looped[bodyLength + i] == CrossfadedSample(pcm[bodyLength + CROSSFADE_SAMPLES + i], pcm[i], i, CROSSFADE_SAMPLES))
  }

  // ----- the reader ---------------------------------------------------------

  const SILENCE := seq(FRAME_SAMPLES, _ => 0)

  function FrameAt(pcm: seq<int>, k: nat): seq<int>
    requires (k + 1) * FRAME_SAMPLES <= |pcm|
  {
    pcm[k * FRAME_SAMPLES..(k + 1) * FRAME_SAMPLES]
  }

  class AmbientReader {
    const pcm: seq<int>
    var pos: nat
    ghost var count: nat

    /** The cursor stands at the start of the next frame, or past the last whole one. */
    ghost predicate Valid()
      reads this
    {
      var m := |pcm| / FRAME_SAMPLES;
      m > 0 ==> pos == count % m * FRAME_SAMPLES || (count % m == 0 && pos == m * FRAME_SAMPLES)
    }

    constructor (pcm: seq<int>)
      ensures Valid() && this.pcm == pcm && count == 0
    {
      this.pcm, pos, count := pcm, 0, 0;
    }

    /** The k-th frame read is block k modulo the number of whole blocks, whether or not the recording is aligned. */
    method NextFrame() returns (frame: seq<int>)
      requires Valid()
      modifies this
      ensures Valid() && count == old(count) + 1
      ensures |pcm| < FRAME_SAMPLES ==> frame == SILENCE
      ensures |pcm| >= FRAME_SAMPLES ==>
        var k := old(count) % (|pcm| / FRAME_SAMPLES); (k + 1) * FRAME_SAMPLES <= |pcm| && frame == FrameAt(pcm, k)
    {
      var n := |pcm|;
      ghost var m := n / FRAME_SAMPLES;
      ghost var was := count;
      count := count + 1;
      if n < FRAME_SAMPLES {
        return SILENCE;
      }
      NextIndex(was, m);
      var start, end := pos, pos + FRAME_SAMPLES;
      if end > n {
        start, end := 0, FRAME_SAMPLES;
      }
      frame := pcm[start..end];
      pos := if end < n then end else 0;
    }
  }

  lemma NextIndex(k: nat, m: nat)
    requires m > 0
    ensures (k + 1) % m == if k % m == m - 1 then 0 else k % m + 1
  {
    var q, r := k / m, k % m;
    assert k == q * m + r;
    if r == m - 1 {
      assert k + 1 == (q + 1) * m;
      ModUnique(k + 1, m, q + 1, 0);
    } else {
      ModUnique(k + 1, m, q, r + 1);
    }
  }

  lemma ModUnique(x: nat, m: nat, q: nat, r: nat)
    requires m > 0 && r < m && x == q * m + r
    ensures x % m == r
  {
    var d := x / m - q;
    assert d * m == r - x % m;
    if d != 0 { NoSmallMultiple(d, m); }
  }

  lemma NoSmallMultiple(d: int, m: nat)
    requires d != 0
    ensures d * m >= m || d * m <= 0 - m
  {
  }
}
