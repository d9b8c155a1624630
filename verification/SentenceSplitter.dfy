/** Cutting a stream of tokens into sentences for speech synthesis. */
module SentenceSplitter {
  import opened Text

  /** Full stops, question and exclamation marks, Chinese and ASCII. */
  predicate IsTerminator(c: char) {
    c == '\U{3002}' || c == '\U{FF1F}' || c == '\U{FF01}' || c == '?' || c == '!' || c == '.'
  }

  /** Pause punctuation. */
  predicate IsSoft(c: char) {
    || c == '\U{FF0C}' || c == '\U{3001}' || c == '\U{FF1B}' || c == '\U{FF1A}'
    || c == ',' || c == ';' || c == ':'
  }

  /** The two lengths, and which characters can be voiced: the letters and digits. */
  datatype Rules = Rules(soft: int, max: int, readable: char -> bool)

  /** White space cannot be voiced. */
  ghost predicate Sound(r: Rules) {
    forall c :: r.readable(c) ==> !IsSpace(c)
  }

  predicate EndsBlankLine(s: string) {
    |s| >= 2 && s[|s| - 1] == '\n' && s[|s| - 2] == '\n'
  }

  /** A buffer is cut after its last character. */
  predicate Cuts(r: Rules, buffer: string) {
    buffer != "" &&
    var c := buffer[|buffer| - 1];
    IsTerminator(c) || EndsBlankLine(buffer) || (|buffer| >= r.soft && IsSoft(c)) || |buffer| >= r.max
  }

  /** The pieces cut off so far and the buffer, character by character. */
  function Scan(r: Rules, s: string): (seq<string>, string) {
    if s == "" then ([], "")
    else
      var (pieces, buffer) := Scan(r, s[..|s| - 1]);
      var grown := buffer + [s[|s| - 1]];
      if Cuts(r, grown) then (pieces + [grown], "") else (pieces, grown)
  }

  predicate Voiced(r: Rules, s: string) {
    exists i :: 0 <= i < |s| && r.readable(s[i])
  }

  /** What is said of a piece: its text without surrounding white space, if any of it can be voiced. */
  function Said(r: Rules, piece: string): seq<string> {
    if Strip(piece) != "" && Voiced(r, Strip(piece)) then [Strip(piece)] else []
  }

  function AllSaid(r: Rules, pieces: seq<string>): seq<string> {
    if pieces == [] then [] else Said(r, pieces[0]) + AllSaid(r, pieces[1..])
  }

  /** The sentences of a text. */
  function Sentences(r: Rules, s: string): seq<string> {
    AllSaid(r, Scan(r, s).0) + Said(r, Scan(r, s).1)
  }

  lemma {:induction false} AllSaidAppend(r: Rules, pieces: seq<string>, p: string)
    ensures AllSaid(r, pieces + [p]) == AllSaid(r, pieces) + Said(r, p)
  {
    if pieces == [] {
      assert pieces + [p] == [p] && AllSaid(r, ([p])[1..]) == [];
    } else {
      assert (pieces + [p])[1..] == pieces[1..] + [p];
      AllSaidAppend(r, pieces[1..], p);
    }
  }

  /** Where the loop stands after `text`: what it has emitted and what it still holds. */
  predicate Scanned(r: Rules, text: string, out: seq<string>, buffer: string) {
    out == AllSaid(r, Scan(r, text).0) && buffer == Scan(r, text).1
  }

  lemma ScannedStep(r: Rules, text: string, out: seq<string>, buffer: string, c: char)
    requires Scanned(r, text, out, buffer)
    ensures Cuts(r, buffer + [c]) ==> Scanned(r, text + [c], out + Said(r, buffer + [c]), "")
    ensures !Cuts(r, buffer + [c]) ==> Scanned(r, text + [c], out, buffer + [c])
  {
    assert (text + [c])[..|text + [c]| - 1] == text;
    AllSaidAppend(r, Scan(r, text).0, buffer + [c]);
  }

  /** The body of the loop: one more character. */
  method SplitChar(r: Rules, c: char, out: seq<string>, buffer: string, ghost text: string)
    returns (out': seq<string>, buffer': string)
    requires Scanned(r, text, out, buffer)
    ensures Scanned(r, text + [c], out', buffer')
  {
    ScannedStep(r, text, out, buffer, c);
    out', buffer' := out, buffer + [c];
    if Cuts(r, buffer') {
      out', buffer' := out + Said(r, buffer'), "";
    }
  }

  lemma TakeOneMore<T>(s: seq<T>, t: seq<T>, j: nat)
    requires j < |t|
    ensures s + t[..j] + [t[j]] == s + t[..j + 1]
  {
  }

  method SplitToken(r: Rules, token: string, out: seq<string>, buffer: string, ghost before: string)
    returns (out': seq<string>, buffer': string)
    requires Scanned(r, before, out, buffer)
    ensures Scanned(r, before + token, out', buffer')
  {
    out', buffer' := out, buffer;
    var j := 0;
    assert before + token[..0] == before;
    while j < |token|
      invariant j <= |token| && Scanned(r, before + token[..j], out', buffer')
    {
      TakeOneMore(before, token, j);
      out', buffer' := SplitChar(r, token[j], out', buffer', before + token[..j]);
      j := j + 1;
    }
    assert token[..j] == token;
  }

  /** The splitting loop. Its result depends on the text only, not on how it was cut into tokens. */
  method SplitSentences(r: Rules, tokens: seq<string>) returns (out: seq<string>)
    ensures out == Sentences(r, Flatten(tokens))
  {
    out := [];
    var buffer := "";
    var i := 0;
    while i < |tokens|
      invariant i <= |tokens| && Scanned(r, Flatten(tokens[..i]), out, buffer)
    {
      FlattenStep(tokens, i);
      out, buffer := SplitToken(r, tokens[i], out, buffer, Flatten(tokens[..i]));
      i := i + 1;
    }
    assert tokens[..i] == tokens;
    out := out + Said(r, buffer);
  }

  // ----- the pieces, described independently --------------------------------

  /** No cut falls inside: only the whole, if anything, is cut. */
  ghost predicate Uncut(r: Rules, s: string) {
    forall k :: 0 < k < |s| ==> !Cuts(r, s[..k])
  }

  /** A piece is cut at its end and nowhere before. */
  ghost predicate Piece(r: Rules, s: string) {
    s != "" && Cuts(r, s) && Uncut(r, s)
  }

  ghost predicate Pending(r: Rules, s: string) {
    Uncut(r, s) && (s != "" ==> !Cuts(r, s))
  }

  /** The text written as pieces and a pending rest. */
  ghost predicate Factored(r: Rules, s: string, pieces: seq<string>, rest: string) {
    Flatten(pieces) + rest == s && Pending(r, rest) && forall i :: 0 <= i < |pieces| ==> Piece(r, pieces[i])
  }

  lemma Associate<T>(a: seq<T>, b: seq<T>, c: seq<T>)
    ensures a + b + c == a + (b + c)
  {
  }

  lemma FactoredStep(r: Rules, s: string, pieces: seq<string>, rest: string, c: char)
    requires Factored(r, s, pieces, rest)
    ensures Cuts(r, rest + [c]) ==> Factored(r, s + [c], pieces + [rest + [c]], "")
    ensures !Cuts(r, rest + [c]) ==> Factored(r, s + [c], pieces, rest + [c])
  {
    GrownUncut(r, rest, c);
    Associate(Flatten(pieces), rest, [c]);
    FlattenOne(pieces, rest + [c]);
    assert Flatten(pieces) + (rest + [c]) + "" == Flatten(pieces) + (rest + [c]);
  }

  /** The scan cuts where a cut is due, and only there. */
  lemma {:induction false} ScanCuts(r: Rules, s: string)
    ensures Factored(r, s, Scan(r, s).0, Scan(r, s).1)
  {
    if s != "" {
      ScanCuts(r, s[..|s| - 1]);
      var (pieces, rest) := Scan(r, s[..|s| - 1]);
      FactoredStep(r, s[..|s| - 1], pieces, rest, s[|s| - 1]);
      assert s == s[..|s| - 1] + [s[|s| - 1]];
    }
  }

  lemma GrownUncut(r: Rules, buffer: string, c: char)
    requires Pending(r, buffer)
    ensures Uncut(r, buffer + [c])
  {
    var grown := buffer + [c];
    forall k | 0 < k < |grown| ensures !Cuts(r, grown[..k]) {
      assert grown[..k] == buffer[..k];
      if k == |buffer| { assert buffer[..k] == buffer; }
    }
  }

  /** A terminator always ends its piece: whatever follows it, a closing quote too, begins the next one. */
  lemma NothingFollowsATerminator(r: Rules, s: string, c: char, q: char)
    requires IsTerminator(c)
    ensures Scan(r, s + [c]).1 == ""
    ensures var next := Scan(r, s + [c, q]);
      if Cuts(r, [q]) then next.0 == Scan(r, s + [c]).0 + [[q]] else next == (Scan(r, s + [c]).0, [q])
  {
    var t := s + [c];
    assert t[..|t| - 1] == s;
    var u := s + [c, q];
    assert u[..|u| - 1] == t;
    assert "" + [q] == [q];
  }

  lemma PrefixPending(r: Rules, s: string)
    requires s != "" && Uncut(r, s)
    ensures Pending(r, s[..|s| - 1])
  {
    var p := s[..|s| - 1];
    forall k | 0 < k < |p| ensures !Cuts(r, p[..k]) {
      assert p[..k] == s[..k];
    }
  }

  lemma ScanOneMore(r: Rules, s: string, pieces: seq<string>, whole: string)
    requires s != "" && whole != "" && whole[|whole| - 1] == s[|s| - 1]
    requires Scan(r, s[..|s| - 1]) == (pieces, whole[..|whole| - 1])
    ensures Scan(r, s) == if Cuts(r, whole) then (pieces + [whole], "") else (pieces, whole)
  {
    assert whole[..|whole| - 1] + [s[|s| - 1]] == whole;
  }

  /** There is only one way to write a text as pieces and a pending rest, and the scan finds it. */
  lemma {:induction false} CutsAreUnique(r: Rules, s: string, pieces: seq<string>, rest: string)
    requires Factored(r, s, pieces, rest)
    ensures Scan(r, s) == (pieces, rest)
    decreases |s|
  {
    if rest != "" {
      PrefixPending(r, rest);
      assert s[..|s| - 1] == Flatten(pieces) + rest[..|rest| - 1];
      CutsAreUnique(r, s[..|s| - 1], pieces, rest[..|rest| - 1]);
      ScanOneMore(r, s, pieces, rest);
    } else if pieces != [] {
      var earlier, last := pieces[..|pieces| - 1], pieces[|pieces| - 1];
      assert pieces == earlier + [last];
      FlattenOne(earlier, last);
      PrefixPending(r, last);
      assert s[..|s| - 1] == Flatten(earlier) + last[..|last| - 1];
      CutsAreUnique(r, s[..|s| - 1], earlier, last[..|last| - 1]);
      ScanOneMore(r, s, earlier, last);
    }
  }

  // ----- what is said -------------------------------------------------------

  /** Neither over-long nor with a terminator before the end. */
  predicate WellCut(r: Rules, s: string) {
    |s| <= (if r.max < 1 then 1 else r.max) && forall i :: 0 <= i < |s| - 1 ==> !IsTerminator(s[i])
  }

  lemma UncutIsWellCut(r: Rules, s: string)
    requires Uncut(r, s)
    ensures WellCut(r, s)
  {
    if |s| > 1 { assert !Cuts(r, s[..|s| - 1]); }
    forall i | 0 <= i < |s| - 1 ensures !IsTerminator(s[i]) {
      assert !Cuts(r, s[..i + 1]) && s[..i + 1][i] == s[i];
    }
  }

  lemma SaidIsWellCut(r: Rules, piece: string)
    requires Uncut(r, piece)
    ensures forall i :: 0 <= i < |Said(r, piece)| ==> Proper(r, Said(r, piece)[i])
  {
    UncutIsWellCut(r, piece);
    var a, b := StripSpec(piece);
    var t := Strip(piece);
    forall i | 0 <= i < |t| - 1 ensures !IsTerminator(t[i]) {
      assert t[i] == piece[|a| + i];
    }
  }

  /** A sentence handed to synthesis: trimmed, voiceable, well cut. */
  predicate Proper(r: Rules, s: string) {
    s != "" && Trimmed(s) && Voiced(r, s) && WellCut(r, s)
  }

  lemma {:induction false} AllSaidProper(r: Rules, pieces: seq<string>)
    requires forall i :: 0 <= i < |pieces| ==> Uncut(r, pieces[i])
    ensures forall i :: 0 <= i < |AllSaid(r, pieces)| ==> Proper(r, AllSaid(r, pieces)[i])
  {
    if pieces != [] {
      SaidIsWellCut(r, pieces[0]);
      AllSaidProper(r, pieces[1..]);
    }
  }

  /** Every sentence is proper. */
  lemma SentencesAreProper(r: Rules, s: string)
    ensures forall i :: 0 <= i < |Sentences(r, s)| ==> Proper(r, Sentences(r, s)[i])
  {
    ScanCuts(r, s);
    var (pieces, buffer) := Scan(r, s);
    AllSaidProper(r, pieces);
    SaidIsWellCut(r, buffer);
  }

  // ----- nothing that can be voiced is lost ---------------------------------

  function Readable(r: Rules, s: string): string {
    if s == "" then "" else (if r.readable(s[0]) then [s[0]] else "") + Readable(r, s[1..])
  }

  lemma {:induction false} ReadableAppend(r: Rules, s: string, t: string)
    ensures Readable(r, s + t) == Readable(r, s) + Readable(r, t)
  {
    if s == "" {
      assert s + t == t;
    } else {
      assert (s + t)[1..] == s[1..] + t;
      ReadableAppend(r, s[1..], t);
    }
  }

  lemma {:induction false} ReadableNone(r: Rules, s: string)
    requires forall i :: 0 <= i < |s| ==> !r.readable(s[i])
    ensures Readable(r, s) == ""
  {
    if s != "" { ReadableNone(r, s[1..]); }
  }

  lemma SaidKeepsReadable(r: Rules, piece: string)
    requires Sound(r)
    ensures Readable(r, Flatten(Said(r, piece))) == Readable(r, piece)
  {
    var a, b := StripSpec(piece);
    var t := Strip(piece);
    ReadableAppend(r, a + t, b);
    ReadableAppend(r, a, t);
    ReadableNone(r, a);
    ReadableNone(r, b);
    assert Readable(r, piece) == Readable(r, t);
    if Said(r, piece) == [] {
      ReadableNone(r, t);
    } else {
      assert Flatten([t]) == t + Flatten<char>([]) == t;
    }
  }

  lemma {:induction false} AllSaidKeepsReadable(r: Rules, pieces: seq<string>)
    requires Sound(r)
    ensures Readable(r, Flatten(AllSaid(r, pieces))) == Readable(r, Flatten(pieces))
  {
    if pieces != [] {
      SaidKeepsReadable(r, pieces[0]);
      AllSaidKeepsReadable(r, pieces[1..]);
      FlattenAppend(Said(r, pieces[0]), AllSaid(r, pieces[1..]));
      ReadableAppend(r, Flatten(Said(r, pieces[0])), Flatten(AllSaid(r, pieces[1..])));
      ReadableAppend(r, pieces[0], Flatten(pieces[1..]));
    }
  }

  /** The letters and digits of the sentences, in order, are exactly those of the text. */
  lemma NothingReadableIsLost(r: Rules, s: string)
    requires Sound(r)
    ensures Readable(r, Flatten(Sentences(r, s))) == Readable(r, s)
  {
    ScanCuts(r, s);
    var (pieces, buffer) := Scan(r, s);
    AllSaidKeepsReadable(r, pieces);
    SaidKeepsReadable(r, buffer);
    FlattenAppend(AllSaid(r, pieces), Said(r, buffer));
    ReadableAppend(r, Flatten(AllSaid(r, pieces)), Flatten(Said(r, buffer)));
    ReadableAppend(r, Flatten(pieces), buffer);
  }
}
