/**
 * The JavaScript string operations the dashboard relies on: `trim`,
 * `toLowerCase`, `includes`, `split(',')` and the decimal rendering of an ID in
 * a template literal. Strings are sequences of characters.
 */
module Text {

  /**
   * The characters `String.prototype.trim` removes: the WhiteSpace and
   * LineTerminator productions of ECMA-262 (section 12.2 and 12.3).
   */
  predicate IsWhitespace(c: char) {
    c == '\t' || c == '\n' || c == '\U{000B}' || c == '\U{000C}' || c == '\r' || c == ' ' ||
    c == '\U{00A0}' || c == '\U{1680}' || ('\U{2000}' <= c <= '\U{200A}') ||
    c == '\U{2028}' || c == '\U{2029}' || c == '\U{202F}' || c == '\U{205F}' ||
    c == '\U{3000}' || c == '\U{FEFF}'
  }

  /** `!s.trim()`: the string is empty or only whitespace (`Trim` shows the two agree). */
  predicate IsBlank(s: string) {
    forall i :: 0 <= i < |s| ==> IsWhitespace(s[i])
  }

  /** No whitespace at either end. */
  predicate IsTrimmed(s: string) {
    s == [] || (!IsWhitespace(s[0]) && !IsWhitespace(s[|s| - 1]))
  }

  /** Drops leading whitespace: the result is a suffix of `s`. */
  function TrimStart(s: string): (r: string)
    ensures |r| <= |s| && r == s[|s| - |r|..]
    ensures r == [] || !IsWhitespace(r[0])
    ensures forall i :: 0 <= i < |s| - |r| ==> IsWhitespace(s[i])
  {
    if s != [] && IsWhitespace(s[0]) then TrimStart(s[1..]) else s
  }

  /** Drops trailing whitespace: the result is a prefix of `s`. */
  function TrimEnd(s: string): (r: string)
    ensures |r| <= |s| && r == s[..|r|]
    ensures r == [] || !IsWhitespace(r[|r| - 1])
    ensures forall i :: |r| <= i < |s| ==> IsWhitespace(s[i])
  {
    if s != [] && IsWhitespace(s[|s| - 1]) then TrimEnd(s[..|s| - 1]) else s
  }

  /** `s.trim()`. */
  function Trim(s: string): (r: string)
    ensures |r| <= |s|
    ensures forall c :: c in r ==> c in s
    ensures IsTrimmed(r)
    ensures r == [] <==> IsBlank(s)
    ensures IsTrimmed(s) ==> r == s
  {
    var t := TrimStart(s);
    var r := TrimEnd(t);
    assert r == [] <==> IsBlank(s) by {
      if t == [] {
        assert r == [];
      } else {
        assert r != [];
        assert s[|s| - |t|] == t[0];
      }
    }
    assert IsTrimmed(r) by {
      if t != [] && r != [] { assert r[0] == t[0]; }
    }
    assert forall c :: c in r ==> c in t;
    r
  }

  /**
   * `trim` removes whitespace at the two ends and nothing else: the result is
   * the slice of `s` between a whitespace prefix and a whitespace suffix.
   */
  lemma TrimRemovesOnlyEnds(s: string)
    ensures exists i, j :: 0 <= i <= j <= |s| && Trim(s) == s[i..j] &&
              (forall k :: 0 <= k < i ==> IsWhitespace(s[k])) &&
              (forall k :: j <= k < |s| ==> IsWhitespace(s[k]))
  {
    var t := TrimStart(s);
    var r := TrimEnd(t);
    assert Trim(s) == r;
    var i := |s| - |t|;
    var j := i + |r|;
    assert t == s[i..];
    assert r == t[..|r|];
    assert r == s[i..j];
    forall k | j <= k < |s|
      ensures IsWhitespace(s[k])
    {
      assert s[k] == t[k - i];
    }
  }

  /** `c.toLowerCase()` for the ASCII letters. */
  function LowerChar(c: char): char {
    if 'A' <= c <= 'Z' then (c as int + 32) as char else c
  }

  /** `s.toLowerCase()` restricted to ASCII: A-Z are lowered in place, every other character is kept. */
  function Lower(s: string): (r: string)
    ensures |r| == |s| && forall i :: 0 <= i < |s| ==> r[i] == LowerChar(s[i])
  {
    seq(|s|, i requires 0 <= i < |s| => LowerChar(s[i]))
  }

  /** Lower-casing twice is lower-casing once. */
  lemma LowerIdempotent(s: string)
    ensures Lower(Lower(s)) == Lower(s)
  {
    assert forall i :: 0 <= i < |s| ==> LowerChar(LowerChar(s[i])) == LowerChar(s[i]);
  }

  /** Lower-casing leaves whitespace where it is, so it cannot change blankness. */
  lemma LowerKeepsBlank(s: string)
    ensures IsBlank(Lower(s)) <==> IsBlank(s)
  {
    var l := Lower(s);
    assert forall i :: 0 <= i < |s| ==> (IsWhitespace(l[i]) <==> IsWhitespace(s[i]));
  }

  /** `needle` occurs in `hay` starting at position `i`. */
  predicate OccursAt(hay: string, needle: string, i: nat) {
    i + |needle| <= |hay| && hay[i..i + |needle|] == needle
  }

  /** `hay.includes(needle)`. */
  function Contains(hay: string, needle: string): (r: bool)
    ensures needle == [] ==> r
    ensures r ==> |needle| <= |hay|
    ensures |needle| <= |hay| && hay[..|needle|] == needle ==> r
    decreases |hay|
  {
    if |needle| <= |hay| && hay[..|needle|] == needle then true
    else if hay == [] then false
    else Contains(hay[1..], needle)
  }

  /** `Contains` holds exactly when the needle occurs at some position. */
  lemma {:induction false} ContainsIffOccurs(hay: string, needle: string)
    ensures Contains(hay, needle) <==> exists i: nat :: OccursAt(hay, needle, i)
    decreases |hay|
  {
    if |needle| <= |hay| && hay[..|needle|] == needle {
      assert OccursAt(hay, needle, 0);
    } else if hay == [] {
    } else {
      ContainsIffOccurs(hay[1..], needle);
      forall i: nat
        ensures OccursAt(hay[1..], needle, i) <==> OccursAt(hay, needle, i + 1)
      {
        if i + |needle| <= |hay[1..]| {
          assert hay[1..][i..i + |needle|] == hay[i + 1..i + 1 + |needle|];
        }
      }
      if exists i: nat :: OccursAt(hay, needle, i) {
        var i: nat :| OccursAt(hay, needle, i);
        assert i != 0;
        assert OccursAt(hay[1..], needle, i - 1);
      }
    }
  }

  /** The position of the first `sep` in `s`, or `|s|` when there is none. */
  function IndexOf(s: string, sep: char): (i: nat)
    ensures i <= |s|
    ensures sep !in s[..i]
    ensures i < |s| ==> s[i] == sep
  {
    if s == [] || s[0] == sep then 0
    else
      var j := IndexOf(s[1..], sep);
      assert s[..j + 1] == [s[0]] + s[1..][..j];
      j + 1
  }

  /** `s.split(sep)`: the pieces between separators; there is always at least one. */
  function Split(s: string, sep: char): (r: seq<string>)
    ensures |r| >= 1
    decreases |s|
  {
    var i := IndexOf(s, sep);
    if i == |s| then [s] else [s[..i]] + Split(s[i + 1..], sep)
  }

  /** `pieces.join(sep)`. */
  function Join(pieces: seq<string>, sep: char): string {
    if |pieces| == 0 then ""
    else if |pieces| == 1 then pieces[0]
    else pieces[0] + [sep] + Join(pieces[1..], sep)
  }

  /** No piece contains the separator. */
  lemma {:induction false} SplitPiecesFree(s: string, sep: char)
    ensures forall piece :: piece in Split(s, sep) ==> sep !in piece
    decreases |s|
  {
    var i := IndexOf(s, sep);
    if i < |s| {
      SplitPiecesFree(s[i + 1..], sep);
    }
  }

  /** Splitting and joining again gives back the original text. */
  lemma {:induction false} JoinSplit(s: string, sep: char)
    ensures Join(Split(s, sep), sep) == s
    decreases |s|
  {
    var i := IndexOf(s, sep);
    if i < |s| {
      var rest := Split(s[i + 1..], sep);
      JoinSplit(s[i + 1..], sep);
      assert ([s[..i]] + rest)[1..] == rest;
      assert s == s[..i] + [sep] + s[i + 1..];
    }
  }

  /** A piece without the separator splits to itself. */
  lemma SplitWithoutSeparator(s: string, sep: char)
    requires sep !in s
    ensures Split(s, sep) == [s]
  {
    assert IndexOf(s, sep) == |s|;
  }

  /** A separator after a separator-free prefix starts a new piece. */
  lemma SplitAfterPiece(x: string, sep: char, t: string)
    requires sep !in x
    ensures Split(x + [sep] + t, sep) == [x] + Split(t, sep)
  {
    var w := x + [sep] + t;
    var i := IndexOf(w, sep);
    assert w[|x|] == sep;
    assert i == |x|;
    assert w[..i] == x;
    assert w[i + 1..] == t;
  }

  /** Joining pieces that do not contain the separator and splitting again gives the pieces back. */
  lemma {:induction false} SplitJoin(pieces: seq<string>, sep: char)
    requires |pieces| >= 1
    requires forall piece :: piece in pieces ==> sep !in piece
    ensures Split(Join(pieces, sep), sep) == pieces
  {
    if |pieces| == 1 {
      SplitWithoutSeparator(pieces[0], sep);
    } else {
      SplitJoin(pieces[1..], sep);
      SplitAfterPiece(pieces[0], sep, Join(pieces[1..], sep));
      assert pieces == [pieces[0]] + pieces[1..];
    }
  }

  function DigitChar(d: nat): char
    requires d < 10
  {
    "0123456789"[d]
  }

  /** The decimal digits of `n`, most significant first, without leading zeros. */
  function NatToString(n: nat): (r: string)
    ensures |r| >= 1
    ensures forall i :: 0 <= i < |r| ==> '0' <= r[i] <= '9'
    ensures r[0] == '0' ==> n == 0
  {
    if n < 10 then [DigitChar(n)] else NatToString(n / 10) + [DigitChar(n % 10)]
  }

  /** `${n}` for an integer: a minus sign before the digits of a negative one. */
  function IntToString(n: int): (r: string)
    ensures |r| >= 1 && (r[0] == '-' <==> n < 0)
    ensures forall i :: (if n < 0 then 1 else 0) <= i < |r| ==> '0' <= r[i] <= '9'
  {
    if n < 0 then "-" + NatToString(-n) else NatToString(n)
  }

  function DigitValue(c: char): nat
    requires '0' <= c <= '9'
  {
    c as int - '0' as int
  }

  /** Reads a run of decimal digits back as a number. */
  function ParseNat(s: string): nat
    requires forall i :: 0 <= i < |s| ==> '0' <= s[i] <= '9'
  {
    if s == [] then 0 else ParseNat(s[..|s| - 1]) * 10 + DigitValue(s[|s| - 1])
  }

  /** The rendered digits read back as the number they came from. */
  lemma {:induction false} ParseNatToString(n: nat)
    ensures ParseNat(NatToString(n)) == n
  {
    if n >= 10 {
      ParseNatToString(n / 10);
      var r := NatToString(n);
      assert r[..|r| - 1] == NatToString(n / 10);
    }
  }

  /** Distinct integers render to distinct strings, so an ID can be read back from a URL. */
  lemma IntToStringInjective(m: int, n: int)
    requires IntToString(m) == IntToString(n)
    ensures m == n
  {
    var a := NatToString(if m < 0 then -m else m);
    var b := NatToString(if n < 0 then -n else n);
    assert m < 0 ==> IntToString(m) == "-" + a && IntToString(m)[0] == '-' && IntToString(m)[1..] == a;
    assert n < 0 ==> IntToString(n) == "-" + b && IntToString(n)[0] == '-' && IntToString(n)[1..] == b;
    assert m >= 0 ==> IntToString(m) == a && '0' <= a[0] <= '9';
    assert n >= 0 ==> IntToString(n) == b && '0' <= b[0] <= '9';
    assert a == b;
    ParseNatToString(if m < 0 then -m else m);
    ParseNatToString(if n < 0 then -n else n);
  }

  /** A rendered integer is a minus sign and digits, so it never holds a path separator. */
  lemma IntToStringHasNoSlash(n: int)
    ensures '/' !in IntToString(n)
  {
    var d := NatToString(if n < 0 then -n else n);
    assert forall i :: 0 <= i < |d| ==> d[i] != '/';
    if n < 0 {
      assert IntToString(n) == "-" + d;
    }
  }

  /** A text that starts with a separator-free part and then the separator splits there in one way only. */
  lemma SplitAtFirst(x: string, u: string, y: string, v: string, sep: char)
    requires sep !in x && sep !in y
    requires u != [] && u[0] == sep && v != [] && v[0] == sep
    requires x + u == y + v
    ensures x == y && u == v
  {
    var w := x + u;
    assert forall k :: 0 <= k < |x| ==> w[k] != sep;
    assert forall k :: 0 <= k < |y| ==> w[k] != sep;
    assert w[|x|] == sep && w[|y|] == sep;
    assert |x| == |y|;
    assert x == w[..|x|] && y == w[..|y|];
    assert u == w[|x|..] && v == w[|y|..];
  }

  /** Texts that agree after a common start agree. */
  lemma CancelPrefix(p: string, a: string, b: string)
    requires p + a == p + b
    ensures a == b
  {
    assert a == (p + a)[|p|..] && b == (p + b)[|p|..];
  }

  /** A concatenation splits back into its two parts. */
  lemma Halves(a: string, b: string)
    ensures (a + b)[..|a|] == a && (a + b)[|a|..] == b
  {
  }
}
