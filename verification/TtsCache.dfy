/** The bounded cache of synthesised phrases and the provider that fills it. */
module TtsCache {
  import opened Text
  import opened Bytes

  datatype Key = Key(text: string, voice: string)

  type Chunk = seq<Byte>

  /** Entries stand in order of use, the least recent first. */
  datatype Entry = Entry(key: Key, chunks: seq<Chunk>)

  function Size(chunks: seq<Chunk>): nat {
    if chunks == [] then 0 else |chunks[0]| + Size(chunks[1..])
  }

  function Total(entries: seq<Entry>): nat {
    if entries == [] then 0 else Size(entries[0].chunks) + Total(entries[1..])
  }

  predicate Distinct(entries: seq<Entry>) {
    forall i, j :: 0 <= i < j < |entries| ==> entries[i].key != entries[j].key
  }

  predicate Has(entries: seq<Entry>, key: Key) {
    exists i :: 0 <= i < |entries| && entries[i].key == key
  }

  predicate Fits(entries: seq<Entry>, maxEntries: int, maxBytes: int) {
    |entries| <= maxEntries && Total(entries) <= maxBytes
  }

  function Find(entries: seq<Entry>, key: Key): (r: Option<nat>)
    ensures r.Some? <==> Has(entries, key)
    ensures r.Some? ==> r.value < |entries| && entries[r.value].key == key
  {
    if entries == [] then None
    else if entries[0].key == key then assert Has(entries, key); Some(0)
    else
      var later := Find(entries[1..], key);
      assert forall i :: 0 < i < |entries| ==> entries[i] == entries[1..][i - 1];
      if later.None? then None else assert entries[later.value + 1].key == key; Some(later.value + 1)
  }

  /** The entries but the one at `i`. */
  function Drop(entries: seq<Entry>, i: nat): seq<Entry>
    requires i < |entries|
  {
    entries[..i] + entries[i + 1..]
  }

  function Without(entries: seq<Entry>, key: Key): seq<Entry> {
    if Find(entries, key).Some? then Drop(entries, Find(entries, key).value) else entries
  }

  /** Drops the oldest entries until the rest is within both bounds or nothing is left. */
  function Evicted(entries: seq<Entry>, maxEntries: int, maxBytes: int): seq<Entry> {
    if entries == [] || Fits(entries, maxEntries, maxBytes) then entries
    else Evicted(entries[1..], maxEntries, maxBytes)
  }

  function Stored(entries: seq<Entry>, key: Key, chunks: seq<Chunk>, maxEntries: int, maxBytes: int): seq<Entry> {
    if Size(chunks) > maxBytes then Without(entries, key)
    else Evicted(Without(entries, key) + [Entry(key, chunks)], maxEntries, maxBytes)
  }

  function Touched(entries: seq<Entry>, key: Key): seq<Entry> {
    if Find(entries, key).Some? then Drop(entries, Find(entries, key).value) + [entries[Find(entries, key).value]]
    else entries
  }

  // ----- what eviction does -------------------------------------------------

  lemma {:induction false} TotalAppend(a: seq<Entry>, b: seq<Entry>)
    ensures Total(a + b) == Total(a) + Total(b)
  {
    if a == [] {
      assert a + b == b;
    } else {
      assert (a + b)[1..] == a[1..] + b;
      TotalAppend(a[1..], b);
    }
  }

  lemma TotalDrop(entries: seq<Entry>, i: nat)
    requires i < |entries|
    ensures Total(entries) == Total(Drop(entries, i)) + Size(entries[i].chunks)
  {
    var a, e, b := entries[..i], entries[i], entries[i + 1..];
    assert entries == a + ([e] + b);
    TotalAppend(a, [e] + b);
    TotalAppend([e], b);
    TotalAppend(a, b);
    assert Total([e]) == Size(e.chunks) + Total([]);
  }

  /** The number of entries evicted. */
  function Victims(entries: seq<Entry>, maxEntries: int, maxBytes: int): (k: nat)
    ensures k <= |entries| && Evicted(entries, maxEntries, maxBytes) == entries[k..]
  {
    if entries == [] || Fits(entries, maxEntries, maxBytes) then 0
    else 1 + Victims(entries[1..], maxEntries, maxBytes)
  }

  /** Eviction takes the shortest prefix that suffices: no shorter one would have brought the rest within bounds. */
  lemma {:induction false} EvictsShortestPrefix(entries: seq<Entry>, maxEntries: int, maxBytes: int)
    ensures var k := Victims(entries, maxEntries, maxBytes); k == |entries| || Fits(entries[k..], maxEntries, maxBytes)
    ensures forall j :: 0 <= j < Victims(entries, maxEntries, maxBytes) ==> !Fits(entries[j..], maxEntries, maxBytes)
  {
    if entries != [] && !Fits(entries, maxEntries, maxBytes) {
      EvictsShortestPrefix(entries[1..], maxEntries, maxBytes);
      var k := Victims(entries[1..], maxEntries, maxBytes);
      forall j | 0 <= j < k + 1 ensures !Fits(entries[j..], maxEntries, maxBytes) {
        if j > 0 { assert entries[j..] == entries[1..][j - 1..]; } else { assert entries[j..] == entries; }
      }
      assert entries[1..][k..] == entries[k + 1..];
    } else {
      assert entries[0..] == entries;
    }
  }

  /** An entry that fits on its own survives its own put, as the most recent one. */
  lemma PutKeepsItsKey(entries: seq<Entry>, key: Key, chunks: seq<Chunk>, maxEntries: int, maxBytes: int)
    requires Size(chunks) <= maxBytes && maxEntries >= 1
    ensures var s := Stored(entries, key, chunks, maxEntries, maxBytes);
      s != [] && s[|s| - 1] == Entry(key, chunks) && Fits(s, maxEntries, maxBytes)
  {
    var all := Without(entries, key) + [Entry(key, chunks)];
    EvictsShortestPrefix(all, maxEntries, maxBytes);
    assert all[|all| - 1..] == [Entry(key, chunks)];
    assert Total([Entry(key, chunks)]) == Size(chunks) + Total([]);
  }

  lemma WithoutLacks(entries: seq<Entry>, key: Key)
    requires Distinct(entries)
    ensures Distinct(Without(entries, key)) && !Has(Without(entries, key), key)
  {
    if Find(entries, key).Some? {
      var i := Find(entries, key).value;
      var d := Drop(entries, i);
      assert forall j :: 0 <= j < |d| ==> d[j] == entries[if j < i then j else j + 1];
    }
  }

  // ----- the store object ---------------------------------------------------

  /** Entries stand in the order in which their keys were last used. */
  ghost predicate ByRecency(entries: seq<Entry>, lastUse: map<Key, nat>, now: nat) {
    && (forall i :: 0 <= i < |entries| ==> entries[i].key in lastUse && lastUse[entries[i].key] < now)
    && (forall i, j :: 0 <= i < j < |entries| ==>
          entries[i].key in lastUse && entries[j].key in lastUse && lastUse[entries[i].key] < lastUse[entries[j].key])
  }

  /** Removing entries and using one now keeps the order. */
  lemma DropKeepsRecency(entries: seq<Entry>, i: nat, lastUse: map<Key, nat>, now: nat)
    requires ByRecency(entries, lastUse, now) && i < |entries|
    ensures ByRecency(Drop(entries, i), lastUse, now)
  {
    var d := Drop(entries, i);
    assert forall j :: 0 <= j < |d| ==> d[j] == entries[if j < i then j else j + 1];
  }

  lemma UseKeepsRecency(entries: seq<Entry>, e: Entry, lastUse: map<Key, nat>, now: nat)
    requires ByRecency(entries, lastUse, now) && !Has(entries, e.key)
    ensures ByRecency(entries + [e], lastUse[e.key := now], now + 1)
  {
    var n := entries + [e];
    forall i | 0 <= i < |entries| ensures n[i] == entries[i] && n[i].key != e.key { }
  }

  lemma SuffixKeepsRecency(entries: seq<Entry>, k: nat, lastUse: map<Key, nat>, now: nat)
    requires ByRecency(entries, lastUse, now) && k <= |entries|
    ensures ByRecency(entries[k..], lastUse, now)
  {
  }

  lemma RecencyIsDistinct(entries: seq<Entry>, lastUse: map<Key, nat>, now: nat)
    requires ByRecency(entries, lastUse, now)
    ensures Distinct(entries)
  {
    forall i, j | 0 <= i < j < |entries| ensures entries[i].key != entries[j].key {
      assert lastUse[entries[i].key] < lastUse[entries[j].key];
    }
  }

  class TtsCacheStore {
    const maxEntries: int
    const maxTotalBytes: int
    var store: seq<Entry>
    var totalBytes: int
    ghost var lastUse: map<Key, nat>
    ghost var now: nat

    /** The byte count is the sum of the stored sizes, both bounds hold, and the order is that of use. */
    ghost predicate Valid()
      reads this
    {
      && totalBytes == Total(store)
      && (store == [] || Fits(store, maxEntries, maxTotalBytes))
      && ByRecency(store, lastUse, now)
    }

    constructor (maxEntries: int, maxTotalBytes: int)
      ensures Valid() && store == [] && this.maxEntries == maxEntries && this.maxTotalBytes == maxTotalBytes
    {
      this.maxEntries, this.maxTotalBytes := maxEntries, maxTotalBytes;
      store, totalBytes, lastUse, now := [], 0, map[], 0;
    }

    /** A hit becomes the most recently used entry. */
    method Get(key: Key) returns (chunks: Option<seq<Chunk>>)
      requires Valid()
      modifies this
      ensures Valid() && store == Touched(old(store), key)
      ensures chunks.Some? <==> Has(old(store), key)
      ensures chunks.Some? ==> store != [] && store[|store| - 1] == Entry(key, chunks.value)
      ensures chunks.Some? ==> Entry(key, chunks.value) in old(store)
    {
      var found := Find(store, key);
      if found.None? {
        return None;
      }
      var e := store[found.value];
      TotalDrop(store, found.value);
      RecencyIsDistinct(store, lastUse, now);
      WithoutLacks(store, key);
      DropKeepsRecency(store, found.value, lastUse, now);
      UseKeepsRecency(Drop(store, found.value), e, lastUse, now);
      TotalAppend(Drop(store, found.value), [e]);
      assert Total([e]) == Size(e.chunks) + Total([]);
      store := Drop(store, found.value) + [e];
      lastUse, now := lastUse[key := now], now + 1;
      chunks := Some(e.chunks);
    }

    /** Stores a phrase as the most recent one, at the cost of the least recent; one too large is not kept at all. */
    method Put(key: Key, chunks: seq<Chunk>)
      requires Valid()
      modifies this
      ensures Valid() && store == Stored(old(store), key, chunks, maxEntries, maxTotalBytes)
    {
      Remove(key);
      var size := Size(chunks);
      if size > maxTotalBytes {
        return;
      }
      var e := Entry(key, chunks);
      UseKeepsRecency(store, e, lastUse, now);
      TotalAppend(store, [e]);
      assert Total([e]) == Size(chunks) + Total([]);
      store := store + [e];
      lastUse, now := lastUse[key := now], now + 1;
      totalBytes := totalBytes + size;
      Evict();
    }

    method Remove(key: Key)
      requires Valid()
      modifies this
      ensures Valid() && store == Without(old(store), key) && !Has(store, key)
    {
      RecencyIsDistinct(store, lastUse, now);
      WithoutLacks(store, key);
      var found := Find(store, key);
      if found.Some? {
        TotalDrop(store, found.value);
        DropKeepsRecency(store, found.value, lastUse, now);
        totalBytes := totalBytes - Size(store[found.value].chunks);
        store := Drop(store, found.value);
      }
    }

    /** Pops the least recently used entries while a bound is exceeded. */
    method Evict()
      requires totalBytes == Total(store) && ByRecency(store, lastUse, now)
      modifies this`store, this`totalBytes
      ensures Valid() && store == Evicted(old(store), maxEntries, maxTotalBytes)
    {
      while store != [] && (|store| > maxEntries || totalBytes > maxTotalBytes)
        invariant totalBytes == Total(store) && ByRecency(store, lastUse, now)
        invariant Evicted(store, maxEntries, maxTotalBytes) == Evicted(old(store), maxEntries, maxTotalBytes)
        decreases |store|
      {
        SuffixKeepsRecency(store, 1, lastUse, now);
        totalBytes := totalBytes - Size(store[0].chunks);
        store := store[1..];
      }
    }
  }

  // ----- the caching provider -----------------------------------------------

  /** One synthesis under way: a hit replays what was stored, a miss passes the inner synthesiser's chunks on and,
      if the text is short enough, keeps them. */
  datatype Mode = Replay(stored: seq<Chunk>) | Fill | PassThrough

  /** `heard` is what has been yielded so far, which a filling stream also accumulates. */
  datatype Stream = Stream(key: Key, mode: Mode, heard: seq<Chunk>, open: bool, complete: bool)

  datatype Provider = Provider(entries: seq<Entry>, streams: seq<Stream>)

  datatype Step = Open(key: Key) | Yield(stream: nat) | End(stream: nat) | Abort(stream: nat)

  /** The limits, and the inner synthesiser: the same phrase always gives the same chunks. */
  datatype Setting = Setting(maxEntries: int, maxBytes: int, maxChars: int, inner: Key -> seq<Chunk>)

  /** Where a stream's chunks come from. */
  function Source(c: Setting, t: Stream): seq<Chunk> {
    if t.mode.Replay? then t.mode.stored else c.inner(t.key)
  }

  predicate Enabled(c: Setting, p: Provider, step: Step) {
    match step
    case Open(_) => true
    case Yield(s) => s < |p.streams| && p.streams[s].open && |p.streams[s].heard| < |Source(c, p.streams[s])|
    case End(s) => s < |p.streams| && p.streams[s].open && |p.streams[s].heard| == |Source(c, p.streams[s])|
    case Abort(s) => s < |p.streams| && p.streams[s].open
  }

  function NewStream(c: Setting, entries: seq<Entry>, key: Key): Stream {
    var found := Find(entries, key);
    var mode := if found.Some? then Replay(entries[found.value].chunks) else if |key.text| <= c.maxChars then Fill else PassThrough;
    Stream(key, mode, [], true, false)
  }

  /** A phrase is stored only when its stream came to its own end; an abort, by error or barge-in, stores nothing. */
  function Apply(c: Setting, p: Provider, step: Step): Provider
    requires Enabled(c, p, step)
  {
    match step
    case Open(key) => Provider(Touched(p.entries, key), p.streams + [NewStream(c, p.entries, key)])
    case Yield(s) =>
      var t := p.streams[s];
      p.(streams := p.streams[s := t.(heard := t.heard + [Source(c, t)[|t.heard|]])])
    case End(s) =>
      var t := p.streams[s];
      Provider(if t.mode.Fill? then Stored(p.entries, t.key, t.heard, c.maxEntries, c.maxBytes) else p.entries,
               p.streams[s := t.(open := false, complete := true)])
    case Abort(s) => p.(streams := p.streams[s := p.streams[s].(open := false)])
  }

  /** The store holds whole phrases only. */
  predicate Truthful(c: Setting, entries: seq<Entry>) {
    forall i :: 0 <= i < |entries| ==> entries[i].chunks == c.inner(entries[i].key)
  }

  /** What was heard is the beginning of the phrase, all of it if the stream ended by itself. */
  predicate Honest(c: Setting, t: Stream) {
    && Source(c, t) == c.inner(t.key) && t.heard <= c.inner(t.key)
    && (t.complete ==> t.heard == c.inner(t.key) && !t.open)
  }

  predicate Inv(c: Setting, p: Provider) {
    Truthful(c, p.entries) && forall i :: 0 <= i < |p.streams| ==> Honest(c, p.streams[i])
  }

  lemma DropTruthful(c: Setting, entries: seq<Entry>, i: nat)
    requires Truthful(c, entries) && i < |entries|
    ensures Truthful(c, Drop(entries, i))
  {
    var d := Drop(entries, i);
    assert forall j :: 0 <= j < |d| ==> d[j] == entries[if j < i then j else j + 1];
  }

  lemma StoredTruthful(c: Setting, entries: seq<Entry>, key: Key)
    requires Truthful(c, entries)
    ensures Truthful(c, Stored(entries, key, c.inner(key), c.maxEntries, c.maxBytes))
  {
    if Find(entries, key).Some? { DropTruthful(c, entries, Find(entries, key).value); }
    var all := Without(entries, key) + [Entry(key, c.inner(key))];
    assert Truthful(c, all);
    var k := Victims(all, c.maxEntries, c.maxBytes);
  }

  lemma TouchedTruthful(c: Setting, entries: seq<Entry>, key: Key)
    requires Truthful(c, entries)
    ensures Truthful(c, Touched(entries, key))
  {
    if Find(entries, key).Some? { DropTruthful(c, entries, Find(entries, key).value); }
  }

  lemma StepStaysTruthful(c: Setting, p: Provider, step: Step)
    requires Inv(c, p) && Enabled(c, p, step)
    ensures Truthful(c, Apply(c, p, step).entries)
  {
    match step
    case Open(key) => TouchedTruthful(c, p.entries, key);
    case End(s) =>
      assert Honest(c, p.streams[s]);
      assert p.streams[s].heard == c.inner(p.streams[s].key);
      StoredTruthful(c, p.entries, p.streams[s].key);
    case _ =>
  }

  lemma StepStaysHonest(c: Setting, p: Provider, step: Step, i: nat)
    requires Inv(c, p) && Enabled(c, p, step) && i < |Apply(c, p, step).streams|
    ensures Honest(c, Apply(c, p, step).streams[i])
  {
    if i < |p.streams| { assert Honest(c, p.streams[i]); }
  }

  lemma StepKeeps(c: Setting, p: Provider, step: Step)
    requires Inv(c, p) && Enabled(c, p, step)
    ensures Inv(c, Apply(c, p, step))
  {
    StepStaysTruthful(c, p, step);
    forall i | 0 <= i < |Apply(c, p, step).streams| ensures Honest(c, Apply(c, p, step).streams[i]) {
      StepStaysHonest(c, p, step, i);
    }
  }

  predicate Runs(c: Setting, p: Provider, steps: seq<Step>)
    decreases |steps|
  {
    steps == [] || (Enabled(c, p, steps[0]) && Runs(c, Apply(c, p, steps[0]), steps[1..]))
  }

  function After(c: Setting, p: Provider, steps: seq<Step>): Provider
    requires Runs(c, p, steps)
    decreases |steps|
  {
    if steps == [] then p else After(c, Apply(c, p, steps[0]), steps[1..])
  }

  lemma {:induction false} RunsKeep(c: Setting, p: Provider, steps: seq<Step>)
    requires Inv(c, p) && Runs(c, p, steps)
    ensures Inv(c, After(c, p, steps))
    decreases |steps|
  {
    if steps != [] {
      StepKeeps(c, p, steps[0]);
      RunsKeep(c, Apply(c, p, steps[0]), steps[1..]);
    }
  }

  const EMPTY := Provider([], [])

  /** However any number of syntheses interleave, complete, fail or are cut off: each listener hears what the inner
      synthesiser alone would have said, all of it unless cut off, and the store never holds a truncated phrase. */
  lemma ListenersHearTheInner(c: Setting, steps: seq<Step>, i: nat)
    requires Runs(c, EMPTY, steps)
    ensures var p := After(c, EMPTY, steps); i < |p.streams| ==> p.streams[i].heard <= c.inner(p.streams[i].key)
    ensures var p := After(c, EMPTY, steps);
      i < |p.streams| && p.streams[i].complete ==> p.streams[i].heard == c.inner(p.streams[i].key)
    ensures var p := After(c, EMPTY, steps); i < |p.entries| ==> p.entries[i].chunks == c.inner(p.entries[i].key)
  {
    RunsKeep(c, EMPTY, steps);
    var p := After(c, EMPTY, steps);
    if i < |p.streams| { assert Honest(c, p.streams[i]); }
  }
}
