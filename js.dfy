/**
 * The JavaScript built-ins that the data-access layer and the route handlers
 * lean on, given the meaning ECMAScript gives them: `String.prototype.trim`,
 * `toUpperCase` (on ASCII letters), `split` on a one-character separator,
 * the end index of `slice(0, end)` and `slice(start)`, and the shape of a
 * thrown value and of an optional argument.
 */
module Js {

  /** What a `catch` clause receives: an `Error` object with its message, or anything else. */
  datatype Thrown = Error(message: string) | NonError

  /** `error instanceof Error ? error.message : fallback` */
  function MessageOr(t: Thrown, fallback: string): (m: string)
    ensures t.Error? ==> m == t.message
    ensures t.NonError? ==> m == fallback
  {
    match t
    case Error(msg) => msg
    case NonError => fallback
  }

  /**
   * An argument as a JS callee sees it: left out (`undefined`, which triggers a
   * default parameter value), an explicit `null` (which does not), or a string.
   */
  datatype Arg = Omitted | Null | Text(s: string)

  /** A parameter declared `p = d`: only `undefined` is replaced by the default. */
  function WithDefault(a: Arg, default: string): (r: Arg)
    ensures r != Omitted
    ensures a.Omitted? ==> r == Text(default)
    ensures !a.Omitted? ==> r == a
  {
    if a.Omitted? then Text(default) else a
  }

  /** How a value prints inside a template literal `${a}`. */
  function TemplateText(a: Arg): string {
    match a
    case Omitted => "undefined"
    case Null => "null"
    case Text(s) => s
  }

  // ---------------------------------------------------------------- trim

  /** The WhiteSpace and LineTerminator code points of ECMAScript, which `trim` removes. */
  const WhitespaceChars: set<char> := {
    '\t', '\n', '\U{B}', '\U{C}', '\r', ' ', '\U{A0}', '\U{1680}',
    '\U{2000}', '\U{2001}', '\U{2002}', '\U{2003}', '\U{2004}', '\U{2005}',
    '\U{2006}', '\U{2007}', '\U{2008}', '\U{2009}', '\U{200A}',
    '\U{2028}', '\U{2029}', '\U{202F}', '\U{205F}', '\U{3000}', '\U{FEFF}'
  }

  predicate IsWhitespace(c: char) {
    c in WhitespaceChars
  }

  predicate AllWhitespace(s: string) {
    forall i | 0 <= i < |s| :: IsWhitespace(s[i])
  }

  /** Neither end of `s` is whitespace (vacuously so for the empty string). */
  predicate Trimmed(s: string) {
    s != [] ==> !IsWhitespace(s[0]) && !IsWhitespace(s[|s| - 1])
  }

  /** How many whitespace characters `s` starts with. */
  function LeadingWhitespace(s: string): (n: nat)
    ensures n <= |s|
    ensures forall k | 0 <= k < n :: IsWhitespace(s[k])
    ensures n < |s| ==> !IsWhitespace(s[n])
  {
    if s == [] || !IsWhitespace(s[0]) then 0 else 1 + LeadingWhitespace(s[1..])
  }

  /** How many whitespace characters `s` ends with. */
  function TrailingWhitespace(s: string): (n: nat)
    ensures n <= |s|
    ensures forall k | |s| - n <= k < |s| :: IsWhitespace(s[k])
    ensures n < |s| ==> !IsWhitespace(s[|s| - 1 - n])
  {
    if s == [] || !IsWhitespace(s[|s| - 1]) then 0 else 1 + TrailingWhitespace(s[..|s| - 1])
  }

  /**
   * `s.trim()`: the infix of `s` left after removing whitespace from both ends.
   * It is empty exactly when `s` is all whitespace.
   */
  function Trim(s: string): (r: string)
    ensures Trimmed(r)
    ensures var i := LeadingWhitespace(s);
      && i + |r| <= |s| && r == s[i..i + |r|]
      && (forall k | 0 <= k < i :: IsWhitespace(s[k]))
      && (forall k | i + |r| <= k < |s| :: IsWhitespace(s[k]))
    ensures r == [] <==> AllWhitespace(s)
  {
    var i := LeadingWhitespace(s);
    var t := s[i..];
    var j := TrailingWhitespace(t);
    var r := s[i..|s| - j];
    assert i < |s| ==> j < |t|;
    assert forall k | i + |r| <= k < |s| :: s[k] == t[k - i];
    r
  }

  /** Trimming a string that already has no whitespace at either end changes nothing. */
  lemma TrimOfTrimmed(s: string)
    requires Trimmed(s)
    ensures Trim(s) == s
  {
  }

  /** Whitespace in front of a trimmed, non-empty string is all that `trim` removes. */
  lemma TrimPadded(w: string, b: string)
    requires AllWhitespace(w) && b != [] && Trimmed(b)
    ensures Trim(w + b) == b
  {
    var s := w + b;
    var r := Trim(s);
    var i := LeadingWhitespace(s);
    assert s[|w|] == b[0];
    assert i <= |w| by {
      assert forall k | 0 <= k < |w| :: s[k] == w[k];
    }
    assert i == |w|;
    assert s[|s| - 1] == b[|b| - 1];
    assert i + |r| == |s|;
    assert s[|w|..] == b;
  }

  // ---------------------------------------------------------------- toUpperCase

  /** `toUpperCase` on one character, for the ASCII letters; every other character is kept. */
  function UpperChar(c: char): (u: char)
    ensures 'a' <= c <= 'z' ==> u as int == c as int - 32
    ensures !('a' <= c <= 'z') ==> u == c
    ensures IsWhitespace(u) == IsWhitespace(c)
  {
    if 'a' <= c <= 'z' then (c as int - 32) as char else c
  }

  function ToUpper(s: string): (r: string)
    ensures |r| == |s|
    ensures forall i | 0 <= i < |s| :: r[i] == UpperChar(s[i])
  {
    if s == [] then [] else [UpperChar(s[0])] + ToUpper(s[1..])
  }

  // ---------------------------------------------------------------- split / join

  /** `pieces.join(sep)` */
  function Join(pieces: seq<string>, sep: char): string
    requires |pieces| >= 1
  {
    if |pieces| == 1 then pieces[0] else pieces[0] + [sep] + Join(pieces[1..], sep)
  }

  /**
   * `s.split(sep)` for a one-character separator: the maximal runs between
   * separators, including empty ones, so `"".split(",")` is `[""]`.
   * Joining the pieces back gives `s`.
   */
  function Split(s: string, sep: char): (r: seq<string>)
    ensures |r| >= 1
    ensures forall i | 0 <= i < |r| :: sep !in r[i]
    ensures Join(r, sep) == s
  {
    if s == [] then [[]]
    else
      var rest := Split(s[1..], sep);
      if s[0] == sep then
        assert ([[]] + rest)[1..] == rest;
        [[]] + rest
      else
        var r := [[s[0]] + rest[0]] + rest[1..];
        assert r[1..] == rest[1..];
        r
  }

  /** A separator-free string is a single piece. */
  lemma {:induction false} SplitFree(a: string, sep: char)
    requires sep !in a
    ensures Split(a, sep) == [a]
    decreases |a|
  {
    if a != [] {
      assert a[0] in a && sep !in a[1..];
      SplitFree(a[1..], sep);
      assert [a[0]] + a[1..] == a;
    }
  }

  /** A separator-free piece, then a separator, splits off that piece. */
  lemma {:induction false} SplitPiece(a: string, u: string, sep: char)
    requires sep !in a
    ensures Split(a + [sep] + u, sep) == [a] + Split(u, sep)
    decreases |a|
  {
    var w := a + [sep] + u;
    if a == [] {
      assert w == [sep] + u;
      assert w[1..] == u;
    } else {
      assert w[0] == a[0] && a[0] in a && a[0] != sep;
      assert w[1..] == a[1..] + [sep] + u;
      assert sep !in a[1..];
      SplitPiece(a[1..], u, sep);
      var rest := Split(w[1..], sep);
      assert rest[0] == a[1..] && rest[1..] == Split(u, sep);
      assert [a[0]] + a[1..] == a;
    }
  }

  /** Splitting a join of separator-free pieces gives the pieces back. */
  lemma {:induction false} SplitJoin(pieces: seq<string>, sep: char)
    requires |pieces| >= 1
    requires forall i | 0 <= i < |pieces| :: sep !in pieces[i]
    ensures Split(Join(pieces, sep), sep) == pieces
    decreases |pieces|
  {
    if |pieces| == 1 {
      SplitFree(pieces[0], sep);
    } else {
      SplitJoin(pieces[1..], sep);
      SplitPiece(pieces[0], Join(pieces[1..], sep), sep);
      assert pieces == [pieces[0]] + pieces[1..];
    }
  }

  lemma {:induction false} JoinStartsWithFirst(pieces: seq<string>, sep: char)
    requires |pieces| >= 1
    ensures pieces[0] <= Join(pieces, sep)
    ensures |pieces| > 1 ==> |pieces[0]| < |Join(pieces, sep)| && Join(pieces, sep)[|pieces[0]|] == sep
  {
    if |pieces| > 1 {
      assert Join(pieces, sep) == pieces[0] + ([sep] + Join(pieces[1..], sep));
    }
  }

  /** The last piece ends the join. */
  lemma {:induction false} JoinEndsWithLast(pieces: seq<string>, sep: char)
    requires |pieces| >= 1
    ensures |pieces[|pieces| - 1]| <= |Join(pieces, sep)|
    ensures Join(pieces, sep)[|Join(pieces, sep)| - |pieces[|pieces| - 1]|..] == pieces[|pieces| - 1]
    decreases |pieces|
  {
    if |pieces| > 1 {
      var tail := pieces[1..];
      JoinEndsWithLast(tail, sep);
      assert tail[|tail| - 1] == pieces[|pieces| - 1];
      var j := Join(tail, sep);
      assert Join(pieces, sep) == (pieces[0] + [sep]) + j;
      assert Join(pieces, sep)[|Join(pieces, sep)| - |pieces[|pieces| - 1]|..] == j[|j| - |pieces[|pieces| - 1]|..];
    }
  }

  /** A join of trimmed, non-empty pieces is itself trimmed. */
  lemma JoinTrimmed(pieces: seq<string>, sep: char)
    requires |pieces| >= 1
    requires forall i | 0 <= i < |pieces| :: pieces[i] != [] && Trimmed(pieces[i])
    ensures Trimmed(Join(pieces, sep))
  {
    JoinStartsWithFirst(pieces, sep);
    JoinEndsWithLast(pieces, sep);
    var j := Join(pieces, sep);
    var last := pieces[|pieces| - 1];
    assert j[0] == pieces[0][0];
    assert j[|j| - 1] == j[|j| - |last|..][|last| - 1] == last[|last| - 1];
  }

  lemma UpperConcat(s: string, t: string)
    ensures ToUpper(s + t) == ToUpper(s) + ToUpper(t)
  {
    var l, r := ToUpper(s + t), ToUpper(s) + ToUpper(t);
    forall i | 0 <= i < |s + t| ensures l[i] == r[i] {
      if i < |s| {
        assert (s + t)[i] == s[i] && r[i] == ToUpper(s)[i];
      } else {
        assert (s + t)[i] == t[i - |s|] && r[i] == ToUpper(t)[i - |s|];
      }
    }
  }

  /** Upper-casing a join of upper-case pieces around an upper-case separator changes nothing. */
  lemma {:induction false} JoinUpper(pieces: seq<string>, sep: char)
    requires |pieces| >= 1 && UpperChar(sep) == sep
    requires forall i | 0 <= i < |pieces| :: ToUpper(pieces[i]) == pieces[i]
    ensures ToUpper(Join(pieces, sep)) == Join(pieces, sep)
    decreases |pieces|
  {
    if |pieces| > 1 {
      JoinUpper(pieces[1..], sep);
      UpperConcat(pieces[0], [sep]);
      UpperConcat(pieces[0] + [sep], Join(pieces[1..], sep));
    }
  }

  /**
   * `s.split(sep)[0]`: the prefix of `s` before the first `sep`, or all of `s`
   * when it has none.
   */
  function PrefixBefore(s: string, sep: char): (r: string)
    ensures r <= s && sep !in r
    ensures |r| < |s| ==> s[|r|] == sep
    ensures sep !in s ==> r == s
  {
    var pieces := Split(s, sep);
    JoinStartsWithFirst(pieces, sep);
    pieces[0]
  }

  // ---------------------------------------------------------------- numbers and slicing

  /** ECMAScript ToIntegerOrInfinity on a finite number: truncation toward zero. */
  function Trunc(x: real): (n: int)
    ensures 0.0 <= x ==> n as real <= x < n as real + 1.0
    ensures x < 0.0 ==> n as real - 1.0 < x <= n as real
  {
    if x >= 0.0 then x.Floor else -((-x).Floor)
  }

  /** How many elements `s.slice(0, end)` keeps for a finite `end` (negative counts from the back). */
  function SliceEnd(len: nat, end: real): (k: nat)
    ensures k <= len
    ensures 0.0 <= end ==> k as real <= end
    ensures Trunc(end) < 0 ==> k == if len + Trunc(end) < 0 then 0 else len + Trunc(end)
    ensures 0 <= Trunc(end) ==> k == if Trunc(end) < len then Trunc(end) else len
  {
    var rel := Trunc(end);
    if rel < 0 then (if len + rel < 0 then 0 else len + rel)
    else if rel < len then rel else len
  }

  /** An end at or past the length keeps everything. */
  lemma SliceEndCoversAll(len: nat, end: real)
    requires len as real <= end
    ensures SliceEnd(len, end) == len
  {
    assert len <= Trunc(end);
  }

  /** Where `s.slice(start)` starts for an integer `start` (negative counts from the back). */
  function SliceStart(len: nat, start: int): (k: nat)
    ensures k <= len
    ensures start < 0 ==> k == if len + start < 0 then 0 else len + start
    ensures 0 <= start ==> k == if start < len then start else len
  {
    if start < 0 then (if len + start < 0 then 0 else len + start)
    else if start < len then start else len
  }
}
