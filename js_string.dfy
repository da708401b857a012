/**
 * The few JavaScript string and array operations the chat panel relies on:
 * `slice(0, n)`, `trim()`, `includes()`, `toLowerCase()` (ASCII letters only),
 * `split(sep)` and `join(sep)` with a one-character separator.
 * Strings are sequences of characters.
 */
module JsString {

  /** `xs.slice(0, n)` for n >= 0: the first n elements, or all of xs when it is shorter. */
  function Take<T>(xs: seq<T>, n: nat): (r: seq<T>)
    ensures |r| == if |xs| < n then |xs| else n
    ensures r == xs[..|r|]
  {
    if |xs| <= n then xs else xs[..n]
  }

  /** ECMAScript WhiteSpace and LineTerminator code points: exactly what `trim()` strips. */
  predicate IsWhiteSpace(c: char) {
    // WhiteSpace: TAB, VT, FF, ZWNBSP and the Space_Separator category
    || c == '\t' || c == '\U{000B}' || c == '\U{000C}' || c == '\U{FEFF}'
    || c == ' ' || c == '\U{00A0}' || c == '\U{1680}' || ('\U{2000}' <= c <= '\U{200A}')
    || c == '\U{202F}' || c == '\U{205F}' || c == '\U{3000}'
    // LineTerminator: LF, CR, LINE SEPARATOR, PARAGRAPH SEPARATOR
    || c == '\n' || c == '\r' || c == '\U{2028}' || c == '\U{2029}'
  }

  /** True when every character of s is white space (vacuously for ""). */
  predicate AllWhiteSpace(s: string) {
    s == [] || (IsWhiteSpace(s[0]) && AllWhiteSpace(s[1..]))
  }

  /** AllWhiteSpace says that every character is white space. */
  lemma {:induction false} AllWhiteSpaceMeans(s: string)
    ensures AllWhiteSpace(s) <==> forall i :: 0 <= i < |s| ==> IsWhiteSpace(s[i])
  {
    if s != [] {
      AllWhiteSpaceMeans(s[1..]);
      assert forall i :: 1 <= i < |s| ==> s[i] == s[1..][i - 1];
    }
  }

  /** The number of white-space characters at the start of s. */
  function LeadingSpace(s: string): (n: nat)
    ensures n <= |s|
    ensures forall i :: 0 <= i < n ==> IsWhiteSpace(s[i])
    ensures n < |s| ==> !IsWhiteSpace(s[n])
  {
    if s != [] && IsWhiteSpace(s[0]) then
      var n := LeadingSpace(s[1..]);
      assert forall i :: 1 <= i <= n ==> s[i] == s[1..][i - 1];
      n + 1
    else 0
  }

  /** The index just past the last character of s that is not white space (0 when there is none). */
  function SpaceFreeEnd(s: string): (m: nat)
    ensures m <= |s|
    ensures forall i :: m <= i < |s| ==> IsWhiteSpace(s[i])
    ensures m > 0 ==> !IsWhiteSpace(s[m - 1])
  {
    if s != [] && IsWhiteSpace(s[|s| - 1]) then
      var m := SpaceFreeEnd(s[..|s| - 1]);
      assert forall i :: 0 <= i < |s| - 1 ==> s[i] == s[..|s| - 1][i];
      m
    else |s|
  }

  /**
   * `s.trim()`: s with the white space at both ends cut off, so what remains neither
   * starts nor ends with white space.
   */
  function Trim(s: string): (r: string)
    ensures exists k :: OccursAt(s, r, k) && AllWhiteSpace(s[..k]) && AllWhiteSpace(s[k + |r|..])
    ensures r != [] ==> !IsWhiteSpace(r[0]) && !IsWhiteSpace(r[|r| - 1])
    ensures r == [] <==> AllWhiteSpace(s)
  {
    var n := LeadingSpace(s);
    var m := SpaceFreeEnd(s);
    AllWhiteSpaceMeans(s);
    AllWhiteSpaceMeans(s[..n]);
    if n == |s| then
      assert OccursAt(s, [], n) && s[n..] == [];
      []
    else
      // s[n] is not white space, and everything from m on is, so n < m
      var r := s[n..m];
      AllWhiteSpaceMeans(s[m..]);
      assert OccursAt(s, r, n) && n + |r| == m;
      assert r[0] == s[n] && r[|r| - 1] == s[m - 1];
      r
  }

  /** Trimming twice is trimming once: a trimmed text has no white space left at either end. */
  lemma TrimIdempotent(s: string)
    ensures Trim(Trim(s)) == Trim(s)
  {
    var r := Trim(s);
    if r != [] {
      assert LeadingSpace(r) == 0 && SpaceFreeEnd(r) == |r|;
      assert r[0..|r|] == r;
    }
  }

  /** `part` occurs in s starting at index i. */
  predicate OccursAt(s: string, part: string, i: int) {
    0 <= i && i + |part| <= |s| && s[i..i + |part|] == part
  }

  /** `s.includes(part)`. */
  predicate Contains(s: string, part: string) {
    exists i :: 0 <= i <= |s| - |part| && OccursAt(s, part, i)
  }

  /** ASCII upper-case letters map to lower case; every other character is unchanged. */
  function LowerChar(c: char): (r: char)
    ensures 'A' <= c <= 'Z' ==> 'a' <= r <= 'z' && r as int - c as int == 32
    ensures !('A' <= c <= 'Z') ==> r == c
  {
    if 'A' <= c <= 'Z' then (c as int + 32) as char else c
  }

  /** `s.toLowerCase()`, restricted to ASCII letters. */
  function ToLower(s: string): (r: string)
    ensures |r| == |s|
    ensures forall i :: 0 <= i < |s| ==> r[i] == LowerChar(s[i])
  {
    if s == [] then [] else [LowerChar(s[0])] + ToLower(s[1..])
  }

  /** Lower-casing is idempotent. */
  lemma ToLowerIdempotent(s: string)
    ensures ToLower(ToLower(s)) == ToLower(s)
  {
    assert forall i :: 0 <= i < |s| ==> LowerChar(LowerChar(s[i])) == LowerChar(s[i]);
  }

  /** Lower-casing works character by character, so it distributes over concatenation. */
  lemma {:induction false} ToLowerAppend(a: string, b: string)
    ensures ToLower(a + b) == ToLower(a) + ToLower(b)
  {
    if a == [] {
      assert a + b == b;
    } else {
      assert (a + b)[0] == a[0] && (a + b)[1..] == a[1..] + b;
      ToLowerAppend(a[1..], b);
    }
  }

  /** Index of the first occurrence of c in s. */
  function IndexOf(s: string, c: char): (k: nat)
    requires c in s
    ensures k < |s| && s[k] == c && c !in s[..k]
  {
    if s[0] == c then 0
    else
      var k := 1 + IndexOf(s[1..], c);
      assert s[..k] == [s[0]] + s[1..][..k - 1];
      k
  }

  /** `s.split(sep)` for a one-character separator: at least one piece, none containing sep. */
  function Split(s: string, sep: char): (pieces: seq<string>)
    ensures |pieces| >= 1
    ensures forall i :: 0 <= i < |pieces| ==> sep !in pieces[i]
    ensures sep !in s ==> pieces == [s]
    decreases |s|
  {
    if sep !in s then [s]
    else
      var k := IndexOf(s, sep);
      [s[..k]] + Split(s[k + 1..], sep)
  }

  /** `pieces.join(sep)` for a one-character separator. */
  function Join(pieces: seq<string>, sep: char): (r: string)
    ensures |pieces| >= 1 ==> pieces[0] <= r
    ensures |pieces| >= 2 ==> |pieces[0]| < |r| && r[|pieces[0]|] == sep
  {
    if |pieces| == 0 then ""
    else if |pieces| == 1 then pieces[0]
    else pieces[0] + [sep] + Join(pieces[1..], sep)
  }

  /** Joining a first piece onto at least one more puts one separator between them. */
  lemma JoinCons(head: string, rest: seq<string>, sep: char)
    requires |rest| >= 1
    ensures Join([head] + rest, sep) == head + [sep] + Join(rest, sep)
  {
    assert ([head] + rest)[1..] == rest;
  }

  /** Joining the pieces of a split restores the original string. */
  lemma {:induction false} JoinSplit(s: string, sep: char)
    ensures Join(Split(s, sep), sep) == s
    decreases |s|
  {
    if sep in s {
      var k := IndexOf(s, sep);
      var rest := Split(s[k + 1..], sep);
      calc {
        Join(Split(s, sep), sep);
        Join([s[..k]] + rest, sep);
        { JoinCons(s[..k], rest, sep); }
        s[..k] + [sep] + Join(rest, sep);
        { JoinSplit(s[k + 1..], sep); }
        s[..k] + [sep] + s[k + 1..];
        { assert s == s[..k] + [sep] + s[k + 1..]; }
        s;
      }
    }
  }

  /** The first separator in `a + [sep] + b` is the one after `a` when `a` has none. */
  lemma IndexOfAfterPiece(a: string, b: string, sep: char)
    requires sep !in a
    ensures sep in a + [sep] + b && IndexOf(a + [sep] + b, sep) == |a|
  {
    var s := a + [sep] + b;
    assert s[|a|] == sep;
    assert s[..|a|] == a;
  }

  /** Splitting a join of separator-free pieces gives the pieces back. */
  lemma {:induction false} SplitJoin(pieces: seq<string>, sep: char)
    requires |pieces| >= 1
    requires forall i :: 0 <= i < |pieces| ==> sep !in pieces[i]
    ensures Split(Join(pieces, sep), sep) == pieces
  {
    if |pieces| >= 2 {
      var tail := Join(pieces[1..], sep);
      var s := pieces[0] + [sep] + tail;
      assert Join(pieces, sep) == s;
      IndexOfAfterPiece(pieces[0], tail, sep);
      assert s[..|pieces[0]|] == pieces[0];
      assert s[|pieces[0]| + 1..] == tail;
      SplitJoin(pieces[1..], sep);
      assert Split(s, sep) == [pieces[0]] + Split(tail, sep);
    }
  }

  /** The text before the first occurrence of sep (all of s when sep does not occur). */
  lemma FirstPieceIsPrefix(s: string, sep: char)
    ensures Split(s, sep)[0] == if sep in s then s[..IndexOf(s, sep)] else s
  {
  }

  /** Everything after the first sep, re-joined, is exactly the rest of s. */
  lemma {:induction false} RestPiecesJoin(s: string, sep: char)
    requires sep in s
    ensures Join(Split(s, sep)[1..], sep) == s[IndexOf(s, sep) + 1..]
  {
    var k := IndexOf(s, sep);
    var rest := Split(s[k + 1..], sep);
    assert Split(s, sep) == [s[..k]] + rest;
    assert ([s[..k]] + rest)[1..] == rest;
    JoinSplit(s[k + 1..], sep);
  }
}
