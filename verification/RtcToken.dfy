/** The byte layout of a media token: what is signed, and how it is padded. */
module RtcToken {
  import opened Text
  import opened Bytes

  // ----- padding ------------------------------------------------------------

  function Pow2(k: nat): (r: nat)
    ensures r > 0
  {
    if k == 0 then 1 else 2 * Pow2(k - 1)
  }

  /** `r` is the least 256 * 2^k that is not below `n`. */
  ghost predicate LeastBlock(n: int, r: nat, k: nat) {
    r == 256 * Pow2(k) && n <= r && (k > 0 ==> 256 * Pow2(k - 1) < n)
  }

  function BlockFrom(n: int, k: nat): (r: nat)
    requires k > 0 ==> 256 * Pow2(k - 1) < n
    ensures exists j :: j >= k && LeastBlock(n, r, j)
    decreases n - 256 * Pow2(k)
  {
    if 256 * Pow2(k) >= n then assert LeastBlock(n, 256 * Pow2(k), k); 256 * Pow2(k)
    else BlockFrom(n, k + 1)
  }

  function BlockSize(n: int): nat {
    if n <= 0 then 0 else BlockFrom(n, 0)
  }

  method NextPow2MultipleOf256(n: int) returns (size: nat)
    ensures size == BlockSize(n)
  {
    if n <= 0 {
      return 0;
    }
    size := 256;
    ghost var k := 0;
    while size < n
      invariant size == 256 * Pow2(k) && (k > 0 ==> 256 * Pow2(k - 1) < n)
      invariant BlockFrom(n, k) == BlockFrom(n, 0)
      decreases n - size
    {
      size := size * 2;
      k := k + 1;
    }
  }

  lemma {:induction false} Pow2Grows(j: nat, k: nat)
    requires j < k
    ensures 2 * Pow2(j) <= Pow2(k) && Pow2(j) > 0
    decreases k
  {
    if j < k - 1 { Pow2Grows(j, k - 1); } else if j > 0 { Pow2Grows(0, j); }
  }

  /** There is only one. */
  lemma LeastBlockUnique(n: int, r: nat, j: nat, q: nat, k: nat)
    requires LeastBlock(n, r, j) && LeastBlock(n, q, k)
    ensures r == q
  {
    if j < k - 1 { Pow2Grows(j, k - 1); }
    if k < j - 1 { Pow2Grows(k, j - 1); }
  }

  function Zeros(n: nat): seq<Byte> { seq(n, _ => 0) }

  function Pad256(s: seq<Byte>): (r: seq<Byte>)
    ensures |r| == BlockSize(|s|)
  {
    var target := BlockSize(|s|);
    if |s| >= target then s[..target] else s + Zeros(target - |s|)
  }

  /** Nothing is ever cut off. */
  lemma PadExtends(s: seq<Byte>)
    ensures Pad256(s) == s + Zeros(BlockSize(|s|) - |s|)
    ensures BlockSize(|s|) >= |s|
  {
    if |s| == BlockSize(|s|) { assert s[..|s|] == s; }
  }

  // ----- packing ------------------------------------------------------------

  type Bytestring = seq<Byte>

  function PackString(s: Bytestring): Bytestring
    requires |s| < TWO_32
  {
    Pack32(|s|) + s
  }

  /** The packed form of a value is recognisable at the head of any continuation. */
  lemma Pack32Delimits(a: nat, b: nat, x: Bytestring, y: Bytestring)
    requires a < TWO_32 && b < TWO_32 && Pack32(a) + x == Pack32(b) + y
    ensures a == b && x == y
  {
    assert (Pack32(a) + x)[..4] == Pack32(a) && (Pack32(b) + y)[..4] == Pack32(b);
    assert (Pack32(a) + x)[4..] == x && (Pack32(b) + y)[4..] == y;
    UnpackPack(a);
    UnpackPack(b);
  }

  lemma HeadsEqual(a: Bytestring, b: Bytestring, x: Bytestring, y: Bytestring)
    requires |a| == |b| && a + x == b + y
    ensures a == b && x == y
  {
    assert (a + x)[..|a|] == a && (b + y)[..|b|] == b;
    assert (a + x)[|a|..] == x && (b + y)[|b|..] == y;
  }

  lemma StringDelimits(a: Bytestring, b: Bytestring, x: Bytestring, y: Bytestring)
    requires |a| < TWO_32 && |b| < TWO_32 && PackString(a) + x == PackString(b) + y
    ensures a == b && x == y
  {
    assert PackString(a) + x == Pack32(|a|) + (a + x);
    assert PackString(b) + y == Pack32(|b|) + (b + y);
    Pack32Delimits(|a|, |b|, a + x, b + y);
    HeadsEqual(a, b, x, y);
  }

  function PackPrivilege(p: Option<nat>): Bytestring
    requires p.Some? ==> p.value < TWO_32
  {
    if p.Some? then [1] + Pack32(p.value) else [0]
  }

  lemma PrivilegeDelimits(a: Option<nat>, b: Option<nat>, x: Bytestring, y: Bytestring)
    requires (a.Some? ==> a.value < TWO_32) && (b.Some? ==> b.value < TWO_32)
    requires PackPrivilege(a) + x == PackPrivilege(b) + y
    ensures a == b && x == y
  {
    assert (PackPrivilege(a) + x)[0] == PackPrivilege(a)[0] && (PackPrivilege(b) + y)[0] == PackPrivilege(b)[0];
    if a.Some? {
      assert PackPrivilege(a) + x == [1] + (Pack32(a.value) + x);
      assert PackPrivilege(b) + y == [1] + (Pack32(b.value) + y);
      HeadsEqual([1], [1], Pack32(a.value) + x, Pack32(b.value) + y);
      Pack32Delimits(a.value, b.value, x, y);
    } else {
      HeadsEqual([0], [0], x, y);
    }
  }

  // ----- options ------------------------------------------------------------

  datatype Entry = Entry(key: Bytestring, value: Bytestring)

  /** Lexicographic order of keys. */
  predicate Less(a: Bytestring, b: Bytestring) {
    b != [] && (a == [] || a[0] < b[0] || (a[0] == b[0] && Less(a[1..], b[1..])))
  }

  lemma {:induction false} LessIsTotal(a: Bytestring, b: Bytestring)
    ensures Less(a, b) || a == b || Less(b, a)
    ensures !(Less(a, b) && Less(b, a)) && !Less(a, a)
    decreases |a| + |b|
  {
    if a != [] && b != [] {
      LessIsTotal(a[1..], b[1..]);
      assert a == [a[0]] + a[1..] && b == [b[0]] + b[1..];
    }
    if a != [] { LessIrreflexive(a); }
  }

  lemma {:induction false} LessIrreflexive(a: Bytestring)
    ensures !Less(a, a)
  {
    if a != [] { LessIrreflexive(a[1..]); }
  }

  lemma {:induction false} LessTransitive(a: Bytestring, b: Bytestring, c: Bytestring)
    requires Less(a, b) && Less(b, c)
    ensures Less(a, c)
  {
    if a != [] && a[0] == b[0] == c[0] { LessTransitive(a[1..], b[1..], c[1..]); }
  }

  /** The dictionary's entries in insertion order have distinct keys. */
  predicate Distinct(entries: seq<Entry>) {
    forall i, j :: 0 <= i < j < |entries| ==> entries[i].key != entries[j].key
  }

  function Insert(e: Entry, sorted: seq<Entry>): seq<Entry> {
    if sorted == [] || !Less(sorted[0].key, e.key) then [e] + sorted else [sorted[0]] + Insert(e, sorted[1..])
  }

  function Sorted(entries: seq<Entry>): seq<Entry> {
    if entries == [] then [] else Insert(entries[0], Sorted(entries[1..]))
  }

  predicate Ascending(entries: seq<Entry>) {
    |entries| < 2 || (Less(entries[0].key, entries[1].key) && Ascending(entries[1..]))
  }

  lemma {:induction false} InsertSorts(e: Entry, sorted: seq<Entry>)
    requires Ascending(sorted) && forall x :: x in sorted ==> x.key != e.key
    ensures Ascending(Insert(e, sorted))
    ensures multiset(Insert(e, sorted)) == multiset{e} + multiset(sorted)
  {
    if sorted != [] {
      LessIsTotal(sorted[0].key, e.key);
      assert sorted[0] in sorted && sorted == [sorted[0]] + sorted[1..];
      if Less(sorted[0].key, e.key) {
        forall x | x in sorted[1..] ensures x in sorted { }
        InsertSorts(e, sorted[1..]);
        assert Insert(e, sorted)[1..] == Insert(e, sorted[1..]);
      } else {
        assert ([e] + sorted)[1..] == sorted;
      }
    }
  }

  /** Sorting the options permutes them into strictly ascending key order. */
  lemma {:induction false} SortedSorts(entries: seq<Entry>)
    requires Distinct(entries)
    ensures Ascending(Sorted(entries)) && multiset(Sorted(entries)) == multiset(entries)
  {
    if entries != [] {
      SortedSorts(entries[1..]);
      assert entries == [entries[0]] + entries[1..];
      forall x | x in Sorted(entries[1..]) ensures x.key != entries[0].key {
        assert x in multiset(Sorted(entries[1..]));
        assert x in entries[1..];
      }
      InsertSorts(entries[0], Sorted(entries[1..]));
    }
  }

  lemma {:induction false} AscendingFirst(s: seq<Entry>, x: Entry)
    requires Ascending(s) && s != [] && x in s[1..]
    ensures Less(s[0].key, x.key)
  {
    if x != s[1] {
      assert x in s[1..][1..] by { assert s[1..] == [s[1]] + s[1..][1..]; }
      AscendingFirst(s[1..], x);
      LessTransitive(s[0].key, s[1].key, x.key);
    }
  }

  lemma FirstOrLater(s: seq<Entry>, t: seq<Entry>)
    requires s != [] && multiset(s) == multiset(t)
    ensures t != [] && (s[0] == t[0] || s[0] in t[1..])
  {
    assert s[0] in multiset(s);
    assert s[0] in t;
    assert t == [t[0]] + t[1..];
  }

  /** The least entry of two equal collections heads both. */
  lemma AscendingHead(s: seq<Entry>, t: seq<Entry>)
    requires Ascending(s) && Ascending(t) && multiset(s) == multiset(t) && s != []
    ensures t != [] && s[0] == t[0]
  {
    FirstOrLater(s, t);
    FirstOrLater(t, s);
    if s[0] in t[1..] && t[0] in s[1..] {
      AscendingFirst(s, t[0]);
      AscendingFirst(t, s[0]);
      LessIsTotal(s[0].key, t[0].key);
    }
  }

  lemma TailsEqual(s: seq<Entry>, t: seq<Entry>)
    requires s != [] && t != [] && s[0] == t[0] && multiset(s) == multiset(t)
    ensures multiset(s[1..]) == multiset(t[1..])
  {
    assert s == [s[0]] + s[1..] && t == [t[0]] + t[1..];
    assert multiset(s[1..]) == multiset(s) - multiset{s[0]};
    assert multiset(t[1..]) == multiset(t) - multiset{t[0]};
  }

  lemma {:induction false} AscendingUnique(s: seq<Entry>, t: seq<Entry>)
    requires Ascending(s) && Ascending(t) && multiset(s) == multiset(t)
    ensures s == t
  {
    if s == [] {
      assert |multiset(t)| == 0;
    } else {
      AscendingHead(s, t);
      TailsEqual(s, t);
      AscendingUnique(s[1..], t[1..]);
      assert s == [s[0]] + s[1..] && t == [t[0]] + t[1..];
    }
  }

  predicate Packable(entries: seq<Entry>) {
    |entries| < TWO_32 && forall i :: 0 <= i < |entries| ==> |entries[i].key| < TWO_32 && |entries[i].value| < TWO_32
  }

  function PackEntries(entries: seq<Entry>): Bytestring
    requires Packable(entries)
  {
    if entries == [] then []
    else PackString(entries[0].key) + (PackString(entries[0].value) + PackEntries(entries[1..]))
  }

  lemma EntriesThen(entries: seq<Entry>, z: Bytestring)
    requires Packable(entries) && entries != []
    ensures PackEntries(entries) + z
         == PackString(entries[0].key) + (PackString(entries[0].value) + (PackEntries(entries[1..]) + z))
  {
    Regroup(PackString(entries[0].key), PackString(entries[0].value), PackEntries(entries[1..]), z);
  }

  lemma Regroup<T>(a: seq<T>, b: seq<T>, c: seq<T>, z: seq<T>)
    ensures a + (b + c) + z == a + (b + (c + z))
  {
  }

  lemma {:induction false} EntriesDelimit(a: seq<Entry>, b: seq<Entry>, x: Bytestring, y: Bytestring)
    requires Packable(a) && Packable(b) && |a| == |b| && PackEntries(a) + x == PackEntries(b) + y
    ensures a == b && x == y
  {
    if a == [] {
      assert [] + x == x && [] + y == y;
    } else {
      var (p, q) := (PackEntries(a[1..]) + x, PackEntries(b[1..]) + y);
      EntriesThen(a, x);
      EntriesThen(b, y);
      StringDelimits(a[0].key, b[0].key, PackString(a[0].value) + p, PackString(b[0].value) + q);
      StringDelimits(a[0].value, b[0].value, p, q);
      EntriesDelimit(a[1..], b[1..], x, y);
      assert a == [a[0]] + a[1..] && b == [b[0]] + b[1..];
    }
  }

  lemma SortedPackable(entries: seq<Entry>)
    requires Packable(entries) && Distinct(entries)
    ensures |Sorted(entries)| == |entries| && Packable(Sorted(entries))
  {
    SortedSorts(entries);
    assert |Sorted(entries)| == |multiset(Sorted(entries))| == |multiset(entries)| == |entries|;
    forall i | 0 <= i < |Sorted(entries)|
      ensures |Sorted(entries)[i].key| < TWO_32 && |Sorted(entries)[i].value| < TWO_32
    {
      assert Sorted(entries)[i] in multiset(entries);
    }
  }

  function PackDictionary(entries: seq<Entry>): Bytestring
    requires Packable(entries)
  {
    Pack32(|entries|) + PackEntries(entries)
  }

  lemma DictionaryDelimits(a: seq<Entry>, b: seq<Entry>, x: Bytestring, y: Bytestring)
    requires Packable(a) && Packable(b) && PackDictionary(a) + x == PackDictionary(b) + y
    ensures a == b && x == y
  {
    assert PackDictionary(a) + x == Pack32(|a|) + (PackEntries(a) + x);
    assert PackDictionary(b) + y == Pack32(|b|) + (PackEntries(b) + y);
    Pack32Delimits(|a|, |b|, PackEntries(a) + x, PackEntries(b) + y);
    EntriesDelimit(a, b, x, y);
  }

  /** No options and an empty dictionary of options are packed differently. */
  function PackOptions(options: Option<seq<Entry>>): (r: Bytestring)
    requires options.Some? ==> Packable(options.value) && Distinct(options.value)
    ensures r != [] && (r[0] == 1 <==> options.Some?)
  {
    if options.None? then [0]
    else
      SortedPackable(options.value);
      [1] + PackDictionary(Sorted(options.value))
  }

  /** Writes the options into a buffer entry by entry. */
  method WriteOptions(options: Option<seq<Entry>>) returns (buf: Bytestring)
    requires options.Some? ==> Packable(options.value) && Distinct(options.value)
    ensures buf == PackOptions(options)
  {
    if options.None? {
      return [0];
    }
    SortedPackable(options.value);
    var items := Sorted(options.value);
    buf := [1] + Pack32(|options.value|);
    var i := 0;
    while i < |items|
      invariant i <= |items| && buf + PackEntries(items[i..]) == [1] + PackDictionary(items)
    {
      WriteOne(buf, items[i..]);
      assert items[i..][1..] == items[i + 1..];
      buf := buf + PackString(items[i].key) + PackString(items[i].value);
      i := i + 1;
    }
    assert items[i..] == [];
  }

  lemma WriteOne(buf: Bytestring, items: seq<Entry>)
    requires Packable(items) && items != []
    ensures buf + PackEntries(items)
         == buf + PackString(items[0].key) + PackString(items[0].value) + PackEntries(items[1..])
  {
    Regroup3(buf, PackString(items[0].key), PackString(items[0].value), PackEntries(items[1..]));
  }

  lemma OptionsDelimit(a: Option<seq<Entry>>, b: Option<seq<Entry>>, x: Bytestring, y: Bytestring)
    requires a.Some? ==> Packable(a.value) && Distinct(a.value)
    requires b.Some? ==> Packable(b.value) && Distinct(b.value)
    requires PackOptions(a) + x == PackOptions(b) + y
    ensures SameOptions(a, b) && x == y
  {
    assert (PackOptions(a) + x)[0] == PackOptions(a)[0] && (PackOptions(b) + y)[0] == PackOptions(b)[0];
    if a.None? {
      HeadsEqual([0], [0], x, y);
    } else {
      SomeOptionsDelimit(a.value, b.value, x, y);
    }
  }

  lemma SomeOptionsDelimit(a: seq<Entry>, b: seq<Entry>, x: Bytestring, y: Bytestring)
    requires Packable(a) && Distinct(a) && Packable(b) && Distinct(b)
    requires PackOptions(Some(a)) + x == PackOptions(Some(b)) + y
    ensures multiset(a) == multiset(b) && x == y
  {
    SortedPackable(a);
    SortedPackable(b);
    FlaggedDelimits(Sorted(a), Sorted(b), x, y);
    SortedSorts(a);
    SortedSorts(b);
  }

  lemma FlaggedDelimits(a: seq<Entry>, b: seq<Entry>, x: Bytestring, y: Bytestring)
    requires Packable(a) && Packable(b) && [1] + PackDictionary(a) + x == [1] + PackDictionary(b) + y
    ensures a == b && x == y
  {
    var (p, q) := (PackDictionary(a), PackDictionary(b));
    assert [1] + p + x == [1] + (p + x) && [1] + q + y == [1] + (q + y);
    HeadsEqual([1], [1], p + x, q + y);
    DictionaryDelimits(a, b, x, y);
  }

  /** The same dictionary, whatever the insertion order. */
  predicate SameOptions(a: Option<seq<Entry>>, b: Option<seq<Entry>>) {
    a.Some? == b.Some? && (a.Some? ==> multiset(a.value) == multiset(b.value))
  }

  lemma SameOptionsPackAlike(a: Option<seq<Entry>>, b: Option<seq<Entry>>)
    requires a.Some? ==> Packable(a.value) && Distinct(a.value)
    requires b.Some? ==> Packable(b.value) && Distinct(b.value)
    requires SameOptions(a, b)
    ensures PackOptions(a) == PackOptions(b)
  {
    if a.Some? {
      SortedSorts(a.value);
      SortedSorts(b.value);
      AscendingUnique(Sorted(a.value), Sorted(b.value));
      SortedPackable(a.value);
      SortedPackable(b.value);
    }
  }

  // ----- the body -----------------------------------------------------------

  datatype Claims = Claims(
    appId: Bytestring,
    issuedAt: nat,
    salt: nat,
    expiresAt: nat,
    channel: Bytestring,
    user: Bytestring,
    privilege: Option<nat>,
    options: Option<seq<Entry>>)

  /** Anything else makes the packing raise. */
  predicate Fits(c: Claims) {
    && |c.appId| < TWO_32 && |c.channel| < TWO_32 && |c.user| < TWO_32
    && c.issuedAt < TWO_32 && c.salt < TWO_32 && c.expiresAt < TWO_32
    && (c.privilege.Some? ==> c.privilege.value < TWO_32)
    && (c.options.Some? ==> Packable(c.options.value) && Distinct(c.options.value))
  }

  function PackService(c: Claims): Bytestring
    requires Fits(c)
  {
    PackString(c.channel) + PackString(c.user) + PackPrivilege(c.privilege)
  }

  function Body(c: Claims): (r: Bytestring)
    requires Fits(c)
    ensures |r| > 0
  {
    PackString(c.appId) + Pack32(c.issuedAt) + Pack32(c.salt) + Pack32(c.expiresAt) + PackService(c)
    + PackOptions(c.options)
  }

  function HeadFields(c: Claims): seq<Bytestring>
    requires Fits(c)
  {
    [Pack32(|c.appId|), c.appId, Pack32(c.issuedAt), Pack32(c.salt), Pack32(c.expiresAt)]
  }

  function ServiceFields(c: Claims): seq<Bytestring>
    requires Fits(c)
  {
    [Pack32(|c.channel|), c.channel, Pack32(|c.user|), c.user]
    + if c.privilege.None? then [[0]] else [[1], Pack32(c.privilege.value)]
  }

  function OptionFields(options: Option<seq<Entry>>): seq<Bytestring>
    requires options.Some? ==> Packable(options.value) && Distinct(options.value)
  {
    if options.None? then [[0]]
    else
      SortedPackable(options.value);
      [[1], Pack32(|options.value|), PackEntries(Sorted(options.value))]
  }

  lemma FlattenOfTwo<T>(a: seq<T>, b: seq<T>)
    ensures Flatten([a]) == a && Flatten([a, b]) == a + b
  {
    assert [a, b][1..] == [b] && [b][1..] == [];
    assert Flatten([b]) == b + Flatten<T>([]);
    assert Flatten([a]) == a + Flatten<T>([]);
  }

  lemma FlattenOfFive<T>(a: seq<T>, b: seq<T>, c: seq<T>, d: seq<T>, e: seq<T>)
    ensures Flatten([a, b, c]) == a + b + c
    ensures Flatten([a, b, c, d]) == a + b + c + d
    ensures Flatten([a, b, c, d, e]) == a + b + c + d + e
  {
    FlattenOfTwo(a, b);
    FlattenOne([a, b], c);
    assert [a, b] + [c] == [a, b, c];
    FlattenOne([a, b, c], d);
    assert [a, b, c] + [d] == [a, b, c, d];
    FlattenOne([a, b, c, d], e);
    assert [a, b, c, d] + [e] == [a, b, c, d, e];
  }

  lemma HeadLayout(c: Claims)
    requires Fits(c)
    ensures Flatten(HeadFields(c)) == PackString(c.appId) + Pack32(c.issuedAt) + Pack32(c.salt) + Pack32(c.expiresAt)
  {
    FlattenOfFive(Pack32(|c.appId|), c.appId, Pack32(c.issuedAt), Pack32(c.salt), Pack32(c.expiresAt));
  }

  lemma ServiceLayout(c: Claims)
    requires Fits(c)
    ensures Flatten(ServiceFields(c)) == PackService(c)
  {
    var names := [Pack32(|c.channel|), c.channel, Pack32(|c.user|), c.user];
    var rights := if c.privilege.None? then [[0]] else [[1], Pack32(c.privilege.value)];
    FlattenOfFive(Pack32(|c.channel|), c.channel, Pack32(|c.user|), c.user, []);
    FlattenOfTwo([1], if c.privilege.None? then [] else Pack32(c.privilege.value));
    FlattenOfTwo([0], []);
    FlattenAppend(names, rights);
    assert Flatten(names) == PackString(c.channel) + PackString(c.user);
  }

  lemma OptionLayout(options: Option<seq<Entry>>)
    requires options.Some? ==> Packable(options.value) && Distinct(options.value)
    ensures Flatten(OptionFields(options)) == PackOptions(options)
  {
    if options.None? {
      FlattenOfTwo([0], []);
    } else {
      SortedPackable(options.value);
      var sorted := Sorted(options.value);
      FlattenOfFive([1], Pack32(|sorted|), PackEntries(sorted), [], []);
      assert [1] + Pack32(|sorted|) + PackEntries(sorted) == [1] + PackDictionary(sorted);
    }
  }

  /** A body is its fields one after the other, each length before its text and each flag before what it announces. */
  lemma BodyLayout(c: Claims)
    requires Fits(c)
    ensures Body(c) == Flatten(HeadFields(c) + ServiceFields(c) + OptionFields(c.options))
  {
    HeadLayout(c);
    ServiceLayout(c);
    OptionLayout(c.options);
    FlattenAppend(HeadFields(c) + ServiceFields(c), OptionFields(c.options));
    FlattenAppend(HeadFields(c), ServiceFields(c));
  }

  function ServiceThen(c: Claims, z: Bytestring): Bytestring
    requires Fits(c)
  {
    PackString(c.channel) + (PackString(c.user) + (PackPrivilege(c.privilege) + (PackOptions(c.options) + z)))
  }

  function TimesThen(c: Claims, z: Bytestring): Bytestring
    requires Fits(c)
  {
    Pack32(c.issuedAt) + (Pack32(c.salt) + (Pack32(c.expiresAt) + z))
  }

  lemma Regroup6<T>(a: seq<T>, b: seq<T>, c: seq<T>, d: seq<T>, e: seq<T>, f: seq<T>, z: seq<T>)
    ensures a + b + c + d + e + f + z == a + (b + (c + (d + (e + (f + z)))))
  {
  }

  lemma Regroup3<T>(a: seq<T>, b: seq<T>, c: seq<T>, z: seq<T>)
    ensures a + b + c + z == a + (b + (c + z))
  {
  }

  lemma BodyThen(c: Claims, z: Bytestring)
    requires Fits(c)
    ensures Body(c) + z == PackString(c.appId) + TimesThen(c, ServiceThen(c, z))
  {
    Regroup6(PackString(c.appId), Pack32(c.issuedAt), Pack32(c.salt), Pack32(c.expiresAt), PackService(c), PackOptions(c.options), z);
    Regroup3(PackString(c.channel), PackString(c.user), PackPrivilege(c.privilege), PackOptions(c.options) + z);
  }

  predicate SameTimes(c: Claims, d: Claims) {
    c.issuedAt == d.issuedAt && c.salt == d.salt && c.expiresAt == d.expiresAt
  }

  lemma TimesDelimit(c: Claims, d: Claims, x: Bytestring, y: Bytestring)
    requires Fits(c) && Fits(d) && TimesThen(c, x) == TimesThen(d, y)
    ensures SameTimes(c, d) && x == y
  {
    Pack32Delimits(c.issuedAt, d.issuedAt, Pack32(c.salt) + (Pack32(c.expiresAt) + x), Pack32(d.salt) + (Pack32(d.expiresAt) + y));
    Pack32Delimits(c.salt, d.salt, Pack32(c.expiresAt) + x, Pack32(d.expiresAt) + y);
    Pack32Delimits(c.expiresAt, d.expiresAt, x, y);
  }

  predicate SameService(c: Claims, d: Claims) {
    c.channel == d.channel && c.user == d.user && c.privilege == d.privilege && SameOptions(c.options, d.options)
  }

  lemma ServiceDelimits(c: Claims, d: Claims, x: Bytestring, y: Bytestring)
    requires Fits(c) && Fits(d) && ServiceThen(c, x) == ServiceThen(d, y)
    ensures SameService(c, d) && x == y
  {
    var (ox, oy) := (PackOptions(c.options) + x, PackOptions(d.options) + y);
    StringDelimits(c.channel, d.channel, PackString(c.user) + (PackPrivilege(c.privilege) + ox), PackString(d.user) + (PackPrivilege(d.privilege) + oy));
    StringDelimits(c.user, d.user, PackPrivilege(c.privilege) + ox, PackPrivilege(d.privilege) + oy);
    PrivilegeDelimits(c.privilege, d.privilege, ox, oy);
    OptionsDelimit(c.options, d.options, x, y);
  }

  predicate Same(c: Claims, d: Claims) {
    c.appId == d.appId && SameTimes(c, d) && SameService(c, d)
  }

  /** Two padded bodies are the same bytes exactly if they claim the same things. */
  lemma PaddedBodiesEqualIff(c: Claims, d: Claims)
    requires Fits(c) && Fits(d)
    ensures Pad256(Body(c)) == Pad256(Body(d)) <==> Same(c, d)
  {
    if Same(c, d) {
      SameOptionsPackAlike(c.options, d.options);
    }
    if Pad256(Body(c)) == Pad256(Body(d)) {
      PadExtends(Body(c));
      PadExtends(Body(d));
      var x, y := Zeros(BlockSize(|Body(c)|) - |Body(c)|), Zeros(BlockSize(|Body(d)|) - |Body(d)|);
      BodyThen(c, x);
      BodyThen(d, y);
      StringDelimits(c.appId, d.appId, TimesThen(c, ServiceThen(c, x)), TimesThen(d, ServiceThen(d, y)));
      TimesDelimit(c, d, ServiceThen(c, x), ServiceThen(d, y));
      ServiceDelimits(c, d, x, y);
    }
  }

  // ----- the signed block ---------------------------------------------------

  const SIGNATURE_BYTES := 32

  /** The signature, a 32-byte digest of the padded body, in front of the body, padded again. */
  function Outer(signature: Bytestring, padded: Bytestring): Bytestring
    requires |signature| == SIGNATURE_BYTES
  {
    Pad256(Pack32(SIGNATURE_BYTES) + signature + padded)
  }

  lemma BlockDoubles(p: nat, k: nat)
    requires p == 256 * Pow2(k)
    ensures BlockSize(4 + SIGNATURE_BYTES + p) == 2 * p
  {
    var n := 4 + SIGNATURE_BYTES + p;
    if k > 0 { Pow2Grows(0, k); }
    assert LeastBlock(n, 2 * p, k + 1);
    var j :| LeastBlock(n, BlockSize(n), j);
    LeastBlockUnique(n, BlockSize(n), j, 2 * p, k + 1);
  }

  lemma PaddedIsABlock(s: Bytestring) returns (k: nat)
    requires s != []
    ensures |Pad256(s)| == 256 * Pow2(k)
  {
    k :| LeastBlock(|s|, BlockSize(|s|), k);
  }

  lemma OuterDoubles(signature: Bytestring, p: Bytestring, k: nat)
    requires |signature| == SIGNATURE_BYTES && |p| == 256 * Pow2(k)
    ensures |Outer(signature, p)| == 2 * |p| && Outer(signature, p)[36..36 + |p|] == p
  {
    BlockDoubles(|p|, k);
    var s := Pack32(SIGNATURE_BYTES) + signature + p;
    PadExtends(s);
    assert s[36..36 + |p|] == p;
  }

  /** The block sent is exactly twice the padded body, for any claims and any digest; the body can be read off it. */
  lemma OuterIsTwiceTheBody(c: Claims, signature: Bytestring)
    requires Fits(c) && |signature| == SIGNATURE_BYTES
    ensures var p := Pad256(Body(c)); |Outer(signature, p)| == 2 * |p| && Outer(signature, p)[36..36 + |p|] == p
  {
    var k := PaddedIsABlock(Body(c));
    OuterDoubles(signature, Pad256(Body(c)), k);
  }
}
