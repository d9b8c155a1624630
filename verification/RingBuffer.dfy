/** The fixed-size buffer between the media SDK's audio callback and its reader: a full buffer overwrites its oldest frame. */
module RingBuffer {

  datatype Frame = Frame(samples: seq<int>)

  /** The slot `i` places on from `tail` in a ring of `n`. */
  function Slot(tail: nat, i: nat, n: nat): nat
    requires tail < n && i <= n
  {
    if tail + i < n then tail + i else tail + i - n
  }

  lemma SlotIsModular(tail: nat, i: nat, n: nat)
    requires tail < n && i <= n
    ensures Slot(tail, i, n) == (tail + i) % n
  {
  }

  /** One slot on. */
  method Advance(x: nat, n: nat) returns (r: nat)
    requires x < n
    ensures r == Slot(x, 1, n)
  {
    SlotIsModular(x, 1, n);
    r := (x + 1) % n;
  }

  /** Every push is still held, the newest in order, or was drained, dropped or cleared. */
  predicate Tally(pushed: seq<Frame>, contents: seq<Frame>, gone: nat) {
    |contents| <= |pushed| && contents == pushed[|pushed| - |contents|..] && |pushed| == gone + |contents|
  }

  /** From `tail` on the ring holds exactly these frames, oldest first. */
  predicate Holds(ring: seq<Frame>, tail: nat, contents: seq<Frame>) {
    && tail < |ring| && |contents| <= |ring|
    && forall i :: 0 <= i < |contents| ==> ring[Slot(tail, i, |ring|)] == contents[i]
  }

  /** The whole state of a ring with at least one slot. */
  predicate Sound(ring: seq<Frame>, head: nat, tail: nat, contents: seq<Frame>, pushed: seq<Frame>, gone: nat) {
    Holds(ring, tail, contents) && head == Slot(tail, |contents|, |ring|) && Tally(pushed, contents, gone)
  }

  /** Taking the oldest frame out, whether to drop it or to hand it over. */
  lemma SoundWithoutOldest(ring: seq<Frame>, head: nat, tail: nat, contents: seq<Frame>, pushed: seq<Frame>, gone: nat)
    requires Sound(ring, head, tail, contents, pushed, gone) && contents != []
    ensures ring[tail] == contents[0]
    ensures Sound(ring, head, Slot(tail, 1, |ring|), contents[1..], pushed, gone + 1)
  {
    var next := Slot(tail, 1, |ring|);
    assert Slot(tail, 0, |ring|) == tail;
    forall i | 0 <= i < |contents| - 1 ensures ring[Slot(next, i, |ring|)] == contents[1..][i] {
      assert Slot(next, i, |ring|) == Slot(tail, i + 1, |ring|);
    }
  }

  lemma SoundEmpty(ring: seq<Frame>)
    requires |ring| > 0
    ensures Sound(ring, 0, 0, [], [], 0)
  {
  }

  lemma SoundWithNewest(ring: seq<Frame>, head: nat, tail: nat, contents: seq<Frame>, pushed: seq<Frame>, gone: nat, frame: Frame)
    requires Sound(ring, head, tail, contents, pushed, gone) && |contents| < |ring|
    ensures Sound(ring[head := frame], Slot(head, 1, |ring|), tail, contents + [frame], pushed + [frame], gone)
  {
    var r := ring[head := frame];
    forall i | 0 <= i < |contents| + 1 ensures r[Slot(tail, i, |ring|)] == (contents + [frame])[i] {
      if i < |contents| { assert Slot(tail, i, |ring|) != head; }
    }
  }

  class FrameRingBuffer {
    const ring: array<Frame>
    var head: nat
    var tail: nat
    var size: nat
    var dropped: nat
    ghost var contents: seq<Frame>
    ghost var pushed: seq<Frame>
    ghost var drained: nat
    ghost var cleared: nat

    /** The buffer holds the newest pushes in order; every other push was drained, dropped or cleared. A ring
        without slots is always empty. */
    ghost predicate Valid()
      reads this, ring
    {
      size == |contents| && Loaded()
    }

    ghost predicate Loaded()
      reads `head, `tail, `contents, `pushed, `drained, `dropped, `cleared, ring
    {
      if ring.Length == 0 then contents == [] && Tally(pushed, [], drained + dropped + cleared)
      else Sound(ring[..], head, tail, contents, pushed, drained + dropped + cleared)
    }

    /** The write position is determined by the other two. */
    lemma HeadIsModular()
      requires Valid() && ring.Length > 0
      ensures head == (tail + size) % ring.Length && tail < ring.Length
    {
      SlotIsModular(tail, size, ring.Length);
    }

    constructor (capacity: nat)
      ensures Valid() && ring.Length == capacity && contents == [] && pushed == [] && dropped == 0 && fresh(ring)
    {
      ring := new Frame[capacity](_ => Frame([]));
      head, tail, size, dropped := 0, 0, 0, 0;
      contents, pushed, drained, cleared := [], [], 0, 0;
      new;
      if capacity > 0 { SoundEmpty(ring[..]); }
    }

    /** Returns false if the oldest frame had to give way. */
    method Push(frame: Frame) returns (kept: bool)
      requires Valid() && ring.Length > 0
      modifies this, ring
      ensures Valid() && kept == (old(size) < ring.Length)
      ensures pushed == old(pushed) + [frame] && drained == old(drained) && cleared == old(cleared)
      ensures contents == (if kept then old(contents) else old(contents)[1..]) + [frame]
      ensures dropped == old(dropped) + if kept then 0 else 1
    {
      kept := size != ring.Length;
      if !kept {
        DropOldest();
      }
      Append(frame);
    }

    /** The write at `head`, once there is room. */
    method Append(frame: Frame)
      requires Valid() && size < ring.Length
      modifies this`head, this`size, this`contents, this`pushed, ring
      ensures Valid() && contents == old(contents) + [frame] && pushed == old(pushed) + [frame]
    {
      SoundWithNewest(ring[..], head, tail, contents, pushed, drained + dropped + cleared, frame);
      ghost var before := ring[..];
      ring[head] := frame;
      assert ring[..] == before[head := frame];
      head := Advance(head, ring.Length);
      size, contents, pushed := size + 1, contents + [frame], pushed + [frame];
    }

    method DropOldest()
      requires Valid() && size > 0
      modifies this`tail, this`size, this`dropped, this`contents
      ensures Valid() && contents == old(contents)[1..] && dropped == old(dropped) + 1
    {
      SoundWithoutOldest(ring[..], head, tail, contents, pushed, drained + dropped + cleared);
      tail := Advance(tail, ring.Length);
      size, dropped, contents := size - 1, dropped + 1, contents[1..];
    }

    /** One turn of the drain loop; the size is settled after the loop. */
    method TakeOldest() returns (frame: Frame)
      requires Loaded() && contents != []
      modifies this`tail, this`contents, this`drained
      ensures Loaded() && [frame] + contents == old(contents) && drained == old(drained) + 1
    {
      SoundWithoutOldest(ring[..], head, tail, contents, pushed, drained + dropped + cleared);
      frame := ring[tail];
      tail := Advance(tail, ring.Length);
      contents, drained := contents[1..], drained + 1;
    }

    /** Hands out the oldest frames, at most `max` of them, in the order they were pushed. */
    method Drain(max: nat) returns (out: seq<Frame>)
      requires Valid()
      modifies this`tail, this`size, this`contents, this`drained
      ensures Valid() && |out| == if max < old(size) then max else old(size)
      ensures out + contents == old(contents) && drained == old(drained) + |out|
    {
      var n := if max < size then max else size;
      out := [];
      var i := 0;
      while i < n
        invariant Loaded() && i <= n <= size == old(size) && |out| == i
        invariant out + contents == old(contents) && drained == old(drained) + i
      {
        var frame := TakeOldest();
        assert out + ([frame] + contents) == out + [frame] + contents;
        out := out + [frame];
        i := i + 1;
      }
      size := size - n;
    }

    method Clear()
      requires Valid()
      modifies this
      ensures Valid() && contents == [] && pushed == old(pushed) && drained == old(drained) && dropped == old(dropped)
      ensures cleared == old(cleared) + old(size)
    {
      cleared := cleared + size;
      head, tail, size, contents := 0, 0, 0, [];
    }
  }
}
