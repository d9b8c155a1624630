/** Optional values and the text operations shared by the call engine's components. */
module Text {

  datatype Option<+T> = None | Some(value: T)

  /** The characters that Python's `str.strip` removes. */
  predicate IsSpace(c: char) {
    || '\t' <= c <= '\r'
    || '\U{1C}' <= c <= ' '
    || c == '\U{85}' || c == '\U{A0}' || c == '\U{1680}' || c == '\U{2028}' || c == '\U{2029}'
    || c == '\U{202F}' || c == '\U{205F}' || c == '\U{3000}'
    || '\U{2000}' <= c <= '\U{200A}'
  }

  predicate Blank(s: string) {
    forall i :: 0 <= i < |s| ==> IsSpace(s[i])
  }

  /** Neither the first nor the last character is white space. */
  predicate Trimmed(s: string) {
    s != "" ==> !IsSpace(s[0]) && !IsSpace(s[|s| - 1])
  }

  /** Length of the leading run of white space. */
  function Lead(s: string): nat {
    if s == "" || !IsSpace(s[0]) then 0 else 1 + Lead(s[1..])
  }

  lemma {:induction false} LeadSpec(s: string)
    ensures Lead(s) <= |s| && Blank(s[..Lead(s)])
    ensures Lead(s) < |s| ==> !IsSpace(s[Lead(s)])
  {
    if s != "" && IsSpace(s[0]) {
      LeadSpec(s[1..]);
    }
  }

  /** Length of the trailing run of white space. */
  function Trail(s: string): nat {
    if s == "" || !IsSpace(s[|s| - 1]) then 0 else 1 + Trail(s[..|s| - 1])
  }

  lemma {:induction false} TrailSpec(s: string)
    ensures Trail(s) <= |s| && Blank(s[|s| - Trail(s)..])
    ensures Trail(s) < |s| ==> !IsSpace(s[|s| - 1 - Trail(s)])
  {
    if s != "" && IsSpace(s[|s| - 1]) {
      TrailSpec(s[..|s| - 1]);
    }
  }

  /** Python's `str.strip`. */
  function Strip(s: string): string {
    LeadSpec(s);
    var t := s[Lead(s)..];
    TrailSpec(t);
    t[..|t| - Trail(t)]
  }

  /** Stripping removes white space at the two ends and nothing else. */
  lemma StripSpec(s: string) returns (a: string, b: string)
    ensures s == a + Strip(s) + b && Blank(a) && Blank(b)
    ensures Trimmed(Strip(s))
  {
    LeadSpec(s);
    var t := s[Lead(s)..];
    TrailSpec(t);
    a, b := s[..Lead(s)], t[|t| - Trail(t)..];
    assert t == Strip(s) + b;
  }

  lemma StripOfTrimmed(s: string)
    requires Trimmed(s)
    ensures Strip(s) == s
  {
    assert s[0..] == s;
  }

  function Flatten<T>(parts: seq<seq<T>>): seq<T> {
    if parts == [] then [] else parts[0] + Flatten(parts[1..])
  }

  lemma {:induction false} FlattenAppend<T>(a: seq<seq<T>>, b: seq<seq<T>>)
    ensures Flatten(a + b) == Flatten(a) + Flatten(b)
  {
    if a == [] {
      assert a + b == b;
    } else {
      assert (a + b)[1..] == a[1..] + b;
      FlattenAppend(a[1..], b);
    }
  }

  lemma FlattenOne<T>(parts: seq<seq<T>>, last: seq<T>)
    ensures Flatten(parts + [last]) == Flatten(parts) + last
  {
    FlattenAppend(parts, [last]);
    assert Flatten([last]) == last + Flatten<T>([]);
  }

  lemma FlattenStep<T>(parts: seq<seq<T>>, k: nat)
    requires k < |parts|
    ensures Flatten(parts[..k + 1]) == Flatten(parts[..k]) + parts[k]
  {
    assert parts[..k + 1] == parts[..k] + [parts[k]];
    FlattenOne(parts[..k], parts[k]);
  }

  lemma FlattenPrefix<T>(parts: seq<seq<T>>, k: nat)
    requires k <= |parts|
    ensures Flatten(parts[..k]) <= Flatten(parts)
  {
    assert parts == parts[..k] + parts[k..];
    FlattenAppend(parts[..k], parts[k..]);
  }
}
