/**
 * The JavaScript string operations the components rely on: `trim`,
 * `startsWith`, `toLowerCase`, `repeat`, `split` on a single character,
 * `substring` and the decimal rendering of a number.
 */
module Text {

  /** ECMAScript WhiteSpace and LineTerminator code points: what `trim` removes. */
  predicate IsWhitespace(c: char) {
    var n := c as int;
    n == 0x20 || 0x09 <= n <= 0x0D || n == 0xA0 || n == 0x1680 || 0x2000 <= n <= 0x200A ||
    n == 0x2028 || n == 0x2029 || n == 0x202F || n == 0x205F || n == 0x3000 || n == 0xFEFF
  }

  predicate AllWhitespace(s: string) {
    forall i :: 0 <= i < |s| ==> IsWhitespace(s[i])
  }

  /**
   * `s.trim()`: `s` without its leading and trailing whitespace. What is
   * left neither begins nor ends with whitespace.
   */
  function Trim(s: string): (r: string)
    ensures |r| <= |s|
    ensures r == [] || (!IsWhitespace(r[0]) && !IsWhitespace(r[|r| - 1]))
    decreases |s|
  {
    if s == [] then []
    else if IsWhitespace(s[0]) then Trim(s[1..])
    else if IsWhitespace(s[|s| - 1]) then Trim(s[..|s| - 1])
    else s
  }

  /** Trimming leaves nothing exactly when the string is whitespace only. */
  lemma {:induction false} TrimEmpty(s: string)
    ensures Trim(s) == [] <==> AllWhitespace(s)
    decreases |s|
  {
    if s == [] {
    } else if IsWhitespace(s[0]) {
      TrimEmpty(s[1..]);
      assert AllWhitespace(s) <==> AllWhitespace(s[1..]) by {
        if AllWhitespace(s[1..]) {
          forall i | 0 <= i < |s| ensures IsWhitespace(s[i]) {
            if i > 0 { assert s[i] == s[1..][i - 1]; }
          }
        }
      }
    } else {
      assert !AllWhitespace(s);
      if IsWhitespace(s[|s| - 1]) {
        TrimEmpty(s[..|s| - 1]);
        assert s[..|s| - 1][0] == s[0];
      }
    }
  }

  /**
   * Trimming removes only whitespace, and only at the two ends: the input
   * is some whitespace, then its trim, then some more whitespace.
   */
  lemma {:induction false} TrimIsInfix(s: string) returns (front: string, back: string)
    ensures s == front + Trim(s) + back
    ensures AllWhitespace(front) && AllWhitespace(back)
    decreases |s|
  {
    if s == [] {
      front, back := [], [];
    } else if IsWhitespace(s[0]) {
      var t := Trim(s[1..]);
      assert Trim(s) == t;
      var f, b := TrimIsInfix(s[1..]);
      front, back := [s[0]] + f, b;
      WhitespaceCons(s[0], f);
      Regroup([s[0]], f, t, b);
    } else if IsWhitespace(s[|s| - 1]) {
      var t := Trim(s[..|s| - 1]);
      assert Trim(s) == t;
      var f, b := TrimIsInfix(s[..|s| - 1]);
      front, back := f, b + [s[|s| - 1]];
      WhitespaceSnoc(b, s[|s| - 1]);
      assert s == s[..|s| - 1] + [s[|s| - 1]];
      Regroup(f, t, b, [s[|s| - 1]]);
    } else {
      front, back := [], [];
    }
  }

  lemma WhitespaceCons(c: char, s: string)
    requires IsWhitespace(c) && AllWhitespace(s)
    ensures AllWhitespace([c] + s)
  {
    assert forall i :: 0 < i < |s| + 1 ==> ([c] + s)[i] == s[i - 1];
  }

  lemma WhitespaceSnoc(s: string, c: char)
    requires IsWhitespace(c) && AllWhitespace(s)
    ensures AllWhitespace(s + [c])
  {
    assert forall i :: 0 <= i < |s| ==> (s + [c])[i] == s[i];
  }

  lemma Regroup(a: string, b: string, c: string, d: string)
    ensures a + (b + c + d) == (a + b) + c + d
    ensures (a + b + c) + d == a + b + (c + d)
  {
  }

  /** Trimming twice is trimming once. */
  lemma TrimIdempotent(s: string)
    ensures Trim(Trim(s)) == Trim(s)
  {
    var r := Trim(s);
    TrimOfUntrimmed(r);
  }

  /** A string that neither begins nor ends with whitespace is its own trim. */
  lemma TrimOfUntrimmed(r: string)
    requires r == [] || (!IsWhitespace(r[0]) && !IsWhitespace(r[|r| - 1]))
    ensures Trim(r) == r
  {
  }

  /** `s.startsWith(p)`. */
  predicate StartsWith(s: string, p: string) {
    |p| <= |s| && s[..|p|] == p
  }

  /** `s.substring(0, n)`: at most the first `n` characters. */
  function Prefix(s: string, n: nat): (r: string)
    ensures |r| == if |s| <= n then |s| else n
    ensures StartsWith(s, r)
  {
    if |s| <= n then s else s[..n]
  }

  /** `toLowerCase` on one character, for the ASCII letters. */
  function LowerChar(c: char): char {
    if 'A' <= c <= 'Z' then (c as int - 'A' as int + 'a' as int) as char else c
  }

  /** `s.toLowerCase()`, ASCII letters only. */
  function ToLower(s: string): (r: string)
    ensures |r| == |s|
    ensures forall i :: 0 <= i < |s| ==> r[i] == LowerChar(s[i])
    ensures forall i :: 0 <= i < |r| ==> !('A' <= r[i] <= 'Z')
  {
    seq(|s|, i requires 0 <= i < |s| => LowerChar(s[i]))
  }

  /** `c.repeat(n)`. */
  function Repeat(c: char, n: nat): (r: string)
    ensures |r| == n
    ensures forall i :: 0 <= i < n ==> r[i] == c
  {
    if n == 0 then [] else [c] + Repeat(c, n - 1)
  }

  /** The decimal digits of `n`, as a template literal `${n}` renders them. */
  function NatToString(n: nat): (r: string)
    ensures r != []
    ensures forall i :: 0 <= i < |r| ==> '0' <= r[i] <= '9'
    ensures |r| > 1 ==> r[0] != '0'
  {
    if n < 10 then [Digit(n)] else NatToString(n / 10) + [Digit(n % 10)]
  }

  /** The number a string of decimal digits denotes, most significant digit first. */
  function Value(digits: string): nat
    requires forall i :: 0 <= i < |digits| ==> '0' <= digits[i] <= '9'
    decreases |digits|
  {
    if digits == [] then 0
    else 10 * Value(digits[..|digits| - 1]) + (digits[|digits| - 1] as int - '0' as int)
  }

  /** The digits of `n` denote `n`. */
  lemma {:induction false} NatToStringValue(n: nat)
    ensures Value(NatToString(n)) == n
    decreases n
  {
    var r := NatToString(n);
    if n >= 10 {
      NatToStringValue(n / 10);
      assert r[..|r| - 1] == NatToString(n / 10);
    }
  }

  function Digit(d: nat): (c: char)
    requires d < 10
    ensures '0' <= c <= '9' && c as int - '0' as int == d
  {
    ('0' as int + d) as char
  }

  /**
   * `s.split(sep)` for a one-character separator: the pieces between the
   * separators, in order; there is always one more piece than separators.
   */
  function Split(s: string, sep: char): (r: seq<string>)
    ensures |r| >= 1
    ensures forall i :: 0 <= i < |r| ==> sep !in r[i]
    decreases |s|
  {
    if s == [] then [[]]
    else if s[0] == sep then [[]] + Split(s[1..], sep)
    else
      var rest := Split(s[1..], sep);
      [[s[0]] + rest[0]] + rest[1..]
  }

  /** `pieces.join(sep)`. */
  function Join(pieces: seq<string>, sep: char): string
    requires |pieces| >= 1
    decreases |pieces|
  {
    if |pieces| == 1 then pieces[0] else pieces[0] + [sep] + Join(pieces[1..], sep)
  }

  /** Joining the pieces of a split with the separator gives back the string. */
  lemma {:induction false} JoinSplit(s: string, sep: char)
    ensures Join(Split(s, sep), sep) == s
    decreases |s|
  {
    if s == [] {
    } else if s[0] == sep {
      JoinSplit(s[1..], sep);
      assert Split(s, sep)[1..] == Split(s[1..], sep);
    } else {
      var rest := Split(s[1..], sep);
      JoinSplit(s[1..], sep);
      var r := Split(s, sep);
      if |rest| == 1 {
        assert r == [[s[0]] + rest[0]];
      } else {
        assert r[1..] == rest[1..];
        assert Join(rest, sep) == rest[0] + [sep] + Join(rest[1..], sep);
      }
    }
  }

  /** Splitting pieces that do not contain the separator, after joining them, gives them back. */
  lemma {:induction false} SplitJoin(pieces: seq<string>, sep: char)
    requires |pieces| >= 1
    requires forall i :: 0 <= i < |pieces| ==> sep !in pieces[i]
    ensures Split(Join(pieces, sep), sep) == pieces
    decreases |pieces|, |pieces[0]|
  {
    var p := pieces[0];
    if |pieces| == 1 {
      if p != [] {
        SplitJoin([p[1..]], sep);
        assert Join([p[1..]], sep) == p[1..];
        assert p == [p[0]] + p[1..];
      }
    } else if p == [] {
      SplitJoin(pieces[1..], sep);
      assert Join(pieces, sep) == [sep] + Join(pieces[1..], sep);
      assert pieces == [[]] + pieces[1..];
    } else {
      var shorter := pieces[0 := p[1..]];
      assert shorter[1..] == pieces[1..];
      SplitJoin(shorter, sep);
      assert Join(pieces, sep) == [p[0]] + Join(shorter, sep);
      assert [p[0]] + shorter[0] == p;
    }
  }
}
