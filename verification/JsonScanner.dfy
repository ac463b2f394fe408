/** Finding the last complete top-level array in a review agent's output. */
module JsonScanner {
  import opened Options

  type Byte = b: int | 0 <= b < 256
  type Text = seq<Byte>

  const QUOTE: Byte := 34
  const BACKSLASH: Byte := 92
  const OPEN: Byte := 91
  const CLOSE: Byte := 93

  lemma DelimitersAreThoseOfJson()
    ensures [OPEN as char, CLOSE as char, QUOTE as char, BACKSLASH as char] == "[]\"\\"
  {
  }

  // ---- the specification ----

  // Bytes from inside a string up to and including the quote that ends it. A backslash escapes the byte after it.
  function StringEnd(s: Text, escaped: bool): (n: Option<nat>)
    ensures n.Some? ==> 1 <= n.value <= |s|
  {
    if s == [] then None
    else if !escaped && s[0] == QUOTE then Some(1)
    else Later(1, StringEnd(s[1..], !escaped && s[0] == BACKSLASH))
  }

  function Later(n: nat, rest: Option<nat>): Option<nat> {
    if rest.Some? then Some(n + rest.value) else None
  }

  // Bytes from inside depth open brackets up to and including the bracket that closes the outermost.
  function ArrayEnd(s: Text, depth: nat): (n: Option<nat>)
    requires depth >= 1
    ensures n.Some? ==> 1 <= n.value <= |s|
    decreases |s|
  {
    if s == [] then None
    else if s[0] == QUOTE then
      var n := StringEnd(s[1..], false);
      if n.None? then None else Later(1 + n.value, ArrayEnd(s[1 + n.value..], depth))
    else if s[0] == OPEN then Later(1, ArrayEnd(s[1..], depth + 1))
    else if s[0] == CLOSE then (if depth == 1 then Some(1) else Later(1, ArrayEnd(s[1..], depth - 1)))
    else Later(1, ArrayEnd(s[1..], depth))
  }

  // The complete top-level arrays, in order. Strings count outside arrays too; a stray closing bracket does not.
  function TopArrays(s: Text): seq<Text>
    decreases |s|
  {
    if s == [] then []
    else if s[0] == QUOTE then
      var n := StringEnd(s[1..], false);
      if n.None? then [] else TopArrays(s[1 + n.value..])
    else if s[0] == OPEN then
      var n := ArrayEnd(s[1..], 1);
      if n.None? then [] else [s[..1 + n.value]] + TopArrays(s[1 + n.value..])
    else TopArrays(s[1..])
  }

  function LastOf(found: Option<Text>, arrays: seq<Text>): Option<Text> {
    if arrays == [] then found else Some(arrays[|arrays| - 1])
  }

  // ---- the scanner ----

  // What the rest of the scan comes to: the rest is read from inside depth brackets, the outermost at start.
  ghost function Rest(s: Text, i: nat, depth: nat, start: nat, found: Option<Text>): Option<Text>
    requires i <= |s| && (depth > 0 ==> start < i)
  {
    if depth == 0 then LastOf(found, TopArrays(s[i..]))
    else match ArrayEnd(s[i..], depth)
      case None => found
      case Some(n) => LastOf(Some(s[start..i + n]), TopArrays(s[i + n..]))
  }

  ghost function RestOfString(s: Text, i: nat, escaped: bool, depth: nat, start: nat, found: Option<Text>): Option<Text>
    requires i <= |s| && (depth > 0 ==> start < i)
  {
    match StringEnd(s[i..], escaped)
    case None => found
    case Some(n) => Rest(s, i + n, depth, start, found)
  }

  lemma StepString(s: Text, i: nat, escaped: bool, depth: nat, start: nat, found: Option<Text>)
    requires i < |s| && (depth > 0 ==> start < i)
    ensures RestOfString(s, i, escaped, depth, start, found)
         == if !escaped && s[i] == QUOTE then Rest(s, i + 1, depth, start, found)
            else RestOfString(s, i + 1, !escaped && s[i] == BACKSLASH, depth, start, found)
  {
    hide Rest;
    assert s[i..][1..] == s[i + 1..];
  }

  lemma StepInArray(s: Text, i: nat, depth: nat, start: nat, found: Option<Text>)
    requires start < i < |s| && depth > 0
    ensures Rest(s, i, depth, start, found)
         == if s[i] == QUOTE then RestOfString(s, i + 1, false, depth, start, found)
            else if s[i] == OPEN then Rest(s, i + 1, depth + 1, start, found)
            else if s[i] == CLOSE then
              (if depth == 1 then Rest(s, i + 1, 0, 0, Some(s[start..i + 1])) else Rest(s, i + 1, depth - 1, start, found))
            else Rest(s, i + 1, depth, start, found)
  {
    hide TopArrays, LastOf;
    assert s[i..][1..] == s[i + 1..];
    if s[i] == QUOTE {
      var n := StringEnd(s[i + 1..], false);
      if n.Some? {
        assert s[i..][1 + n.value..] == s[i + 1 + n.value..];
      }
    }
  }

  lemma StepOutside(s: Text, i: nat, found: Option<Text>)
    requires i < |s|
    ensures Rest(s, i, 0, 0, found)
         == if s[i] == QUOTE then RestOfString(s, i + 1, false, 0, 0, found)
            else if s[i] == OPEN then Rest(s, i + 1, 1, i, found)
            else Rest(s, i + 1, 0, 0, found)
  {
    hide ArrayEnd, StringEnd;
    assert s[i..][1..] == s[i + 1..];
    if s[i] == QUOTE {
      var n := StringEnd(s[i + 1..], false);
      if n.Some? {
        assert s[i..][1 + n.value..] == s[i + 1 + n.value..];
      }
    } else if s[i] == OPEN {
      var n := ArrayEnd(s[i + 1..], 1);
      if n.Some? {
        assert s[i..][1 + n.value..] == s[i + 1 + n.value..];
        assert s[i..][..1 + n.value] == s[i..i + 1 + n.value];
      }
    }
  }

  /** One pass returns the last complete top-level array, and nothing exactly when there is none. */
  method ExtractLastJSONArray(s: Text) returns (last: Option<Text>)
    ensures last == LastOf(None, TopArrays(s))
    ensures last.Some? <==> TopArrays(s) != []
  {
    hide Rest, RestOfString, TopArrays;
    var depth, inString, escaped := 0, false, false;
    var start, lastStart, lastEnd := -1, -1, -1;
    ghost var found: Option<Text> := None;
    Starts(s);
    var i := 0;
    while i < |s|
      invariant 0 <= i <= |s| && depth >= 0 && (escaped ==> inString)
      invariant depth > 0 ==> 0 <= start < i
      invariant if lastStart < 0 then found.None?
                else 0 <= lastStart <= lastEnd < i && found == Some(s[lastStart..lastEnd + 1])
      invariant LastOf(None, TopArrays(s))
             == if inString then RestOfString(s, i, escaped, depth, if depth > 0 then start else 0, found)
                else Rest(s, i, depth, if depth > 0 then start else 0, found)
    {
      var c := s[i];
      ghost var from := if depth > 0 then start else 0;
      if inString {
        StepString(s, i, escaped, depth, from, found);
        if escaped {
          escaped := false;
        } else if c == BACKSLASH {
          escaped := true;
        } else if c == QUOTE {
          inString := false;
        }
        i := i + 1;
        continue;
      }
      if depth > 0 {
        StepInArray(s, i, depth, start, found);
      } else {
        StepOutside(s, i, found);
      }
      if c == QUOTE {
        inString := true;
      } else if c == OPEN {
        if depth == 0 {
          start := i;
        }
        depth := depth + 1;
      } else if c == CLOSE {
        if depth == 0 {
          i := i + 1;
          continue;
        }
        depth := depth - 1;
        if depth == 0 {
          lastStart, lastEnd := start, i;
          found := Some(s[lastStart..lastEnd + 1]);
        }
      }
      i := i + 1;
    }
    Ends(s, inString, escaped, depth, if depth > 0 then start else 0, found);
    if lastStart < 0 {
      return None;
    }
    return Some(s[lastStart..lastEnd + 1]);
  }

  lemma Starts(s: Text)
    ensures Rest(s, 0, 0, 0, None) == LastOf(None, TopArrays(s))
  {
    assert s[0..] == s;
  }

  lemma Ends(s: Text, inString: bool, escaped: bool, depth: nat, start: nat, found: Option<Text>)
    requires depth > 0 ==> start < |s|
    ensures Rest(s, |s|, depth, start, found) == found
    ensures RestOfString(s, |s|, escaped, depth, start, found) == found
  {
    assert s[|s|..] == [];
  }

  // ---- text outside strings and arrays ----

  // Every string is ended and every opened array closed.
  predicate Settled(s: Text)
    decreases |s|
  {
    if s == [] then true
    else if s[0] == QUOTE then
      var n := StringEnd(s[1..], false);
      n.Some? && Settled(s[1 + n.value..])
    else if s[0] == OPEN then
      var n := ArrayEnd(s[1..], 1);
      n.Some? && Settled(s[1 + n.value..])
    else Settled(s[1..])
  }

  lemma {:induction false} StringEndExtends(s: Text, t: Text, escaped: bool)
    requires StringEnd(s, escaped).Some?
    ensures StringEnd(s + t, escaped) == StringEnd(s, escaped)
  {
    if !(!escaped && s[0] == QUOTE) {
      StringEndExtends(s[1..], t, !escaped && s[0] == BACKSLASH);
      assert (s + t)[1..] == s[1..] + t;
    }
  }

  lemma {:induction false} ArrayEndExtends(s: Text, t: Text, depth: nat)
    requires depth >= 1 && ArrayEnd(s, depth).Some?
    ensures ArrayEnd(s + t, depth) == ArrayEnd(s, depth)
    decreases |s|
  {
    assert (s + t)[1..] == s[1..] + t;
    if s[0] == QUOTE {
      StringEndExtends(s[1..], t, false);
      var n := StringEnd(s[1..], false).value;
      assert (s + t)[1 + n..] == s[1 + n..] + t;
      ArrayEndExtends(s[1 + n..], t, depth);
    } else if s[0] == OPEN {
      ArrayEndExtends(s[1..], t, depth + 1);
    } else if s[0] == CLOSE {
      if depth > 1 { ArrayEndExtends(s[1..], t, depth - 1); }
    } else {
      ArrayEndExtends(s[1..], t, depth);
    }
  }

  /** After settled text the arrays are its own, then those of what follows. */
  lemma {:induction false} SettledTextComposes(s: Text, t: Text)
    requires Settled(s)
    ensures TopArrays(s + t) == TopArrays(s) + TopArrays(t)
    decreases |s|
  {
    hide ArrayEnd, StringEnd;
    if s == [] {
      assert s + t == t;
    } else {
      assert (s + t)[1..] == s[1..] + t;
      if s[0] == QUOTE {
        StringEndExtends(s[1..], t, false);
        var n := StringEnd(s[1..], false).value;
        assert (s + t)[1 + n..] == s[1 + n..] + t;
        SettledTextComposes(s[1 + n..], t);
      } else if s[0] == OPEN {
        SettledArrayFirst(s, t);
        SettledTextComposes(s[1 + ArrayEnd(s[1..], 1).value..], t);
      } else {
        SettledTextComposes(s[1..], t);
      }
    }
  }

  lemma SettledArrayFirst(s: Text, t: Text)
    requires s != [] && s[0] == OPEN && ArrayEnd(s[1..], 1).Some?
    ensures var n := ArrayEnd(s[1..], 1).value;
            && TopArrays(s) == [s[..1 + n]] + TopArrays(s[1 + n..])
            && TopArrays(s + t) == [s[..1 + n]] + TopArrays(s[1 + n..] + t)
  {
    hide ArrayEnd;
    assert (s + t)[1..] == s[1..] + t;
    ArrayEndExtends(s[1..], t, 1);
    var n := ArrayEnd(s[1..], 1).value;
    assert (s + t)[1 + n..] == s[1 + n..] + t && (s + t)[..1 + n] == s[..1 + n];
  }

  lemma {:induction false} SettledTextsJoin(s: Text, t: Text)
    requires Settled(s)
    ensures Settled(s + t) == Settled(t)
    decreases |s|
  {
    hide ArrayEnd, StringEnd;
    if s == [] {
      assert s + t == t;
    } else {
      assert (s + t)[1..] == s[1..] + t;
      if s[0] == QUOTE {
        StringEndExtends(s[1..], t, false);
        var n := StringEnd(s[1..], false).value;
        assert (s + t)[1 + n..] == s[1 + n..] + t;
        SettledTextsJoin(s[1 + n..], t);
      } else if s[0] == OPEN {
        ArrayEndExtends(s[1..], t, 1);
        var n := ArrayEnd(s[1..], 1).value;
        assert (s + t)[1 + n..] == s[1 + n..] + t;
        SettledTextsJoin(s[1 + n..], t);
      } else {
        SettledTextsJoin(s[1..], t);
      }
    }
  }

  // Ends where the scan of it ends.
  predicate IsArray(a: Text) {
    a != [] && a[0] == OPEN && ArrayEnd(a[1..], 1) == Some(|a| - 1)
  }

  lemma ArrayIsItsOwn(a: Text)
    requires IsArray(a)
    ensures TopArrays(a) == [a] && Settled(a)
  {
    hide ArrayEnd;
    assert a[..|a|] == a && a[|a|..] == [];
  }

  lemma {:induction false} ArrayEndCuts(s: Text, depth: nat)
    requires depth >= 1 && ArrayEnd(s, depth).Some?
    ensures ArrayEnd(s[..ArrayEnd(s, depth).value], depth) == ArrayEnd(s, depth)
    decreases |s|
  {
    var n := ArrayEnd(s, depth).value;
    assert s[..n][1..] == s[1..][..n - 1];
    if s[0] == QUOTE {
      var k := StringEnd(s[1..], false).value;
      StringEndCuts(s[1..], false);
      assert s[1..][..n - 1] == s[1..][..k] + s[1 + k..n];
      StringEndExtends(s[1..][..k], s[1 + k..n], false);
      assert s[..n][1 + k..] == s[1 + k..][..n - 1 - k];
      ArrayEndCuts(s[1 + k..], depth);
    } else if s[0] == OPEN {
      ArrayEndCuts(s[1..], depth + 1);
    } else if s[0] == CLOSE {
      if depth > 1 { ArrayEndCuts(s[1..], depth - 1); }
    } else {
      ArrayEndCuts(s[1..], depth);
    }
  }

  lemma {:induction false} StringEndCuts(s: Text, escaped: bool)
    requires StringEnd(s, escaped).Some?
    ensures StringEnd(s[..StringEnd(s, escaped).value], escaped) == StringEnd(s, escaped)
  {
    if !(!escaped && s[0] == QUOTE) {
      StringEndCuts(s[1..], !escaped && s[0] == BACKSLASH);
      assert s[..StringEnd(s, escaped).value][1..] == s[1..][..StringEnd(s, escaped).value - 1];
    }
  }

  lemma {:induction false} TopArraysAreArrays(s: Text, k: nat)
    requires k < |TopArrays(s)|
    ensures IsArray(TopArrays(s)[k])
    decreases |s|
  {
    hide StringEnd;
    if s[0] == QUOTE {
      TopArraysAreArrays(s[1 + StringEnd(s[1..], false).value..], k);
    } else if s[0] == OPEN {
      var n := ArrayEnd(s[1..], 1).value;
      if k == 0 {
        ArrayEndCuts(s[1..], 1);
        assert s[..1 + n][1..] == s[1..][..n];
      } else {
        TopArraysAreArrays(s[1 + n..], k - 1);
      }
    } else {
      TopArraysAreArrays(s[1..], k);
    }
  }

  /** What is extracted is one array, and extracting from it gives it back. */
  lemma ExtractionIsIdempotent(s: Text)
    ensures var last := LastOf(None, TopArrays(s));
            last.Some? ==> IsArray(last.value) && LastOf(None, TopArrays(last.value)) == last
  {
    var arrays := TopArrays(s);
    if arrays != [] {
      TopArraysAreArrays(s, |arrays| - 1);
      ArrayIsItsOwn(arrays[|arrays| - 1]);
    }
  }

  predicate IsPlain(t: Text) {
    forall i :: 0 <= i < |t| ==> t[i] != QUOTE && t[i] != OPEN
  }

  lemma {:induction false} PlainTextHasNoArrays(t: Text)
    requires IsPlain(t)
    ensures TopArrays(t) == []
  {
    if t != [] {
      PlainTextHasNoArrays(t[1..]);
    }
  }

  /** Prose that is outside strings and brackets, an array, and a tail that opens neither: the array is what is found. */
  lemma LastArrayIsFound(prose: Text, a: Text, tail: Text)
    requires Settled(prose) && IsArray(a) && IsPlain(tail)
    ensures LastOf(None, TopArrays(prose + a + tail)) == Some(a)
  {
    hide TopArrays, Settled, IsArray;
    SettledTextComposes(prose, a);
    ArrayIsItsOwn(a);
    SettledTextsJoin(prose, a);
    SettledTextComposes(prose + a, tail);
    PlainTextHasNoArrays(tail);
  }

  // ---- documents ----

  // Text as a reader sees it. Stray is a closing bracket outside every array.
  datatype Piece = Plain(byte: Byte) | Quoted(body: Text) | Nested(pieces: seq<Piece>) | Stray

  predicate WellFormed(p: Piece, inArray: bool) {
    match p
    case Plain(b) => b != QUOTE && b != OPEN && b != CLOSE
    case Quoted(body) => StringEnd(body + [QUOTE], false) == Some(|body| + 1)
    case Nested(pieces) => forall q :: q in pieces ==> WellFormed(q, true)
    case Stray => !inArray
  }

  function Render(p: Piece): Text {
    match p
    case Plain(b) => [b]
    case Quoted(body) => [QUOTE] + body + [QUOTE]
    case Nested(pieces) => [OPEN] + RenderAll(pieces) + [CLOSE]
    case Stray => [CLOSE]
  }

  function RenderAll(pieces: seq<Piece>): Text {
    if pieces == [] then [] else Render(pieces[0]) + RenderAll(pieces[1..])
  }

  // The nested pieces of a document, rendered.
  function ArraysIn(pieces: seq<Piece>): seq<Text> {
    if pieces == [] then []
    else (if pieces[0].Nested? then [Render(pieces[0])] else []) + ArraysIn(pieces[1..])
  }

  ghost predicate AllWellFormed(pieces: seq<Piece>, inArray: bool) {
    forall p :: p in pieces ==> WellFormed(p, inArray)
  }

  // Inside an array a piece is read over, whatever the depth.
  lemma {:induction false} PieceIsReadOver(p: Piece, t: Text, depth: nat)
    requires depth >= 1 && WellFormed(p, true)
    ensures ArrayEnd(Render(p) + t, depth) == Later(|Render(p)|, ArrayEnd(t, depth))
    decreases p, 0
  {
    var s := Render(p) + t;
    match p {
      case Plain(b) => assert s[1..] == t;
      case Quoted(body) =>
        assert s[1..] == (body + [QUOTE]) + t;
        StringEndExtends(body + [QUOTE], t, false);
        assert s[1 + (|body| + 1)..] == t;
      case Nested(pieces) =>
        assert s[1..] == RenderAll(pieces) + ([CLOSE] + t);
        PiecesAreReadOver(pieces, [CLOSE] + t, depth + 1);
        assert ([CLOSE] + t)[1..] == t;
    }
  }

  lemma {:induction false} PiecesAreReadOver(pieces: seq<Piece>, t: Text, depth: nat)
    requires depth >= 1 && AllWellFormed(pieces, true)
    ensures ArrayEnd(RenderAll(pieces) + t, depth) == Later(|RenderAll(pieces)|, ArrayEnd(t, depth))
    decreases pieces, 0
  {
    if pieces == [] {
      assert RenderAll(pieces) + t == t;
    } else {
      assert RenderAll(pieces) + t == Render(pieces[0]) + (RenderAll(pieces[1..]) + t);
      PieceIsReadOver(pieces[0], RenderAll(pieces[1..]) + t, depth);
      PiecesAreReadOver(pieces[1..], t, depth);
    }
  }

  lemma PieceIsSettled(p: Piece)
    requires WellFormed(p, false)
    ensures Settled(Render(p))
    ensures TopArrays(Render(p)) == if p.Nested? then [Render(p)] else []
  {
    var s := Render(p);
    match p {
      case Plain(b) => assert s[1..] == [];
      case Stray => assert s[1..] == [];
      case Quoted(body) =>
        assert s[1..] == body + [QUOTE] && s[1 + (|body| + 1)..] == [];
      case Nested(pieces) =>
        assert s[1..] == RenderAll(pieces) + [CLOSE];
        PiecesAreReadOver(pieces, [CLOSE], 1);
        ArrayIsItsOwn(s);
    }
  }

  lemma {:induction false} DocumentsCompose(pieces: seq<Piece>, rest: Text)
    requires AllWellFormed(pieces, false)
    ensures TopArrays(RenderAll(pieces) + rest) == ArraysIn(pieces) + TopArrays(rest)
  {
    hide TopArrays, Settled, Render;
    if pieces == [] {
      assert RenderAll(pieces) + rest == rest;
    } else {
      PieceIsSettled(pieces[0]);
      DocumentsCompose(pieces[1..], rest);
      SettledTextComposes(Render(pieces[0]), RenderAll(pieces[1..]) + rest);
      assert RenderAll(pieces) + rest == Render(pieces[0]) + (RenderAll(pieces[1..]) + rest);
    }
  }

  // The bytes of what comes first: a string that is ended, or one byte.
  function Hop(s: Text): (n: nat)
    requires s != [] && (s[0] == QUOTE ==> StringEnd(s[1..], false).Some?)
    ensures 1 <= n <= |s|
  {
    if s[0] == QUOTE then 1 + StringEnd(s[1..], false).value else 1
  }

  lemma ArrayEndStarts(s: Text, depth: nat)
    requires depth >= 1 && ArrayEnd(s, depth).Some?
    ensures s != [] && (s[0] == QUOTE ==> StringEnd(s[1..], false).Some?)
  {
  }

  lemma ArrayEndHops(s: Text, depth: nat)
    requires depth >= 1 && s != [] && (s[0] == QUOTE ==> StringEnd(s[1..], false).Some?)
    ensures ArrayEnd(s, depth) ==
              if s[0] == OPEN then Later(Hop(s), ArrayEnd(s[Hop(s)..], depth + 1))
              else if s[0] != CLOSE then Later(Hop(s), ArrayEnd(s[Hop(s)..], depth))
              else if depth == 1 then Some(1)
              else Later(Hop(s), ArrayEnd(s[Hop(s)..], depth - 1))
  {
  }

  // To come out of a + b brackets is to come out of a and then of b.
  lemma {:induction false} ArrayEndSplits(s: Text, a: nat, b: nat)
    requires a >= 1 && b >= 1 && ArrayEnd(s, a + b).Some?
    ensures ArrayEnd(s, a).Some?
    ensures ArrayEnd(s, a + b) == Later(ArrayEnd(s, a).value, ArrayEnd(s[ArrayEnd(s, a).value..], b))
    decreases |s|
  {
    hide ArrayEnd, Hop, StringEnd;
    ArrayEndStarts(s, a + b);
    ArrayEndHops(s, a + b);
    ArrayEndHops(s, a);
    var n := Hop(s);
    if s[0] == CLOSE && a == 1 {
      HopIsOne(s);
    } else {
      var inner := if s[0] == OPEN then a + 1 else if s[0] == CLOSE then a - 1 else a;
      assert (if s[0] == OPEN then a + b + 1 else if s[0] == CLOSE then a + b - 1 else a + b) == inner + b;
      ArrayEndSplits(s[n..], inner, b);
      var k := ArrayEnd(s[n..], inner).value;
      assert s[n..][k..] == s[n + k..];
    }
  }

  // What a quote that is ended starts.
  lemma EndedStringParses(s: Text)
    requires s != [] && s[0] == QUOTE && StringEnd(s[1..], false).Some?
    ensures var n := StringEnd(s[1..], false).value;
            WellFormed(Quoted(s[1..n]), true) && Render(Quoted(s[1..n])) == s[..1 + n]
  {
    var n := StringEnd(s[1..], false).value;
    StringEndCuts(s[1..], false);
    StringEndsWithQuote(s[1..], false);
    assert s[1..][..n] == s[1..n] + [QUOTE];
  }

  lemma {:induction false} StringEndsWithQuote(s: Text, escaped: bool)
    requires StringEnd(s, escaped).Some?
    ensures s[StringEnd(s, escaped).value - 1] == QUOTE
  {
    if !(!escaped && s[0] == QUOTE) {
      StringEndsWithQuote(s[1..], !escaped && s[0] == BACKSLASH);
    }
  }

  lemma {:induction false} ClosedArrayParses(s: Text) returns (pieces: seq<Piece>)
    requires ArrayEnd(s, 1).Some?
    ensures AllWellFormed(pieces, true)
    ensures s[..ArrayEnd(s, 1).value] == RenderAll(pieces) + [CLOSE]
    decreases |s|
  {
    hide ArrayEnd, Hop, StringEnd, WellFormed, Render, RenderAll;
    ArrayEndStarts(s, 1);
    ArrayEndHops(s, 1);
    if s[0] == CLOSE {
      NoPieces();
      return [];
    }
    var first, n;
    if s[0] == OPEN {
      HopIsOne(s);
      ArrayEndSplits(s[1..], 1, 1);
      var inner := ClosedArrayParses(s[1..]);
      first, n := NestedParses(s, inner);
      assert s[1..][n - 1..] == s[n..];
    } else {
      first, n := FlatParses(s, true);
    }
    var rest := ClosedArrayParses(s[n..]);
    pieces := [first] + rest;
    RenderedFirst(first, rest);
    assert s[..ArrayEnd(s, 1).value] == s[..n] + s[n..][..ArrayEnd(s[n..], 1).value];
    assert s[..n] + (RenderAll(rest) + [CLOSE]) == RenderAll(pieces) + [CLOSE];
  }

  lemma NoPieces()
    ensures RenderAll([]) == []
  {
  }

  lemma HopIsOne(s: Text)
    requires s != [] && s[0] != QUOTE
    ensures Hop(s) == 1
  {
  }

  lemma RenderedFirst(first: Piece, rest: seq<Piece>)
    ensures RenderAll([first] + rest) == Render(first) + RenderAll(rest)
  {
    assert ([first] + rest)[1..] == rest;
  }

  lemma NestedParses(s: Text, inner: seq<Piece>) returns (first: Piece, n: nat)
    requires s != [] && s[0] == OPEN && ArrayEnd(s[1..], 1).Some? && AllWellFormed(inner, true)
    requires s[1..][..ArrayEnd(s[1..], 1).value] == RenderAll(inner) + [CLOSE]
    ensures n == 1 + ArrayEnd(s[1..], 1).value
    ensures first.Nested? && WellFormed(first, true) && WellFormed(first, false) && s[..n] == Render(first)
  {
    n, first := 1 + ArrayEnd(s[1..], 1).value, Nested(inner);
    assert s[..n] == [OPEN] + s[1..][..n - 1];
  }

  lemma FlatParses(s: Text, inArray: bool) returns (first: Piece, n: nat)
    requires s != [] && s[0] != OPEN && (s[0] == QUOTE ==> StringEnd(s[1..], false).Some?)
    requires inArray ==> s[0] != CLOSE
    ensures n == Hop(s) && !first.Nested? && WellFormed(first, inArray) && s[..n] == Render(first)
  {
    n := Hop(s);
    if s[0] == QUOTE {
      first := Quoted(s[1..n - 1]);
      EndedStringParses(s);
    } else {
      first := if s[0] == CLOSE then Stray else Plain(s[0]);
    }
  }

  // A string never ended, an array never closed, or nothing.
  predicate BreaksOff(s: Text) {
    || s == []
    || (s[0] == QUOTE && StringEnd(s[1..], false).None?)
    || (s[0] == OPEN && ArrayEnd(s[1..], 1).None?)
  }

  lemma {:induction false} EveryTextParses(s: Text) returns (pieces: seq<Piece>, rest: Text)
    ensures AllWellFormed(pieces, false) && s == RenderAll(pieces) + rest && BreaksOff(rest)
    decreases |s|
  {
    hide StringEnd, ArrayEnd, WellFormed, Render, RenderAll;
    if BreaksOff(s) {
      NoPieces();
      return [], s;
    }
    var first, n;
    if s[0] == OPEN {
      var inner := ClosedArrayParses(s[1..]);
      first, n := NestedParses(s, inner);
    } else {
      first, n := FlatParses(s, false);
    }
    var more;
    more, rest := EveryTextParses(s[n..]);
    pieces := [first] + more;
    RenderedFirst(first, more);
    assert s == s[..n] + s[n..];
    assert Render(first) + (RenderAll(more) + rest) == RenderAll(pieces) + rest;
  }

  /**
   Every text reads as a document with a rest that breaks off, and what is extracted is the document's last array:
   there is one exactly when the document has one.
   */
  lemma ExtractionMeaning(s: Text) returns (pieces: seq<Piece>, rest: Text)
    ensures AllWellFormed(pieces, false) && s == RenderAll(pieces) + rest && BreaksOff(rest)
    ensures LastOf(None, TopArrays(s)) == LastOf(None, ArraysIn(pieces))
  {
    pieces, rest := EveryTextParses(s);
    DocumentsCompose(pieces, rest);
    assert TopArrays(rest) == [];
  }
}
