/** The JavaScript string operations the storefront relies on: `trim`,
    `toLowerCase`, `startsWith`, `includes`, `split`, `join` and the
    conversion of an integer to its decimal text (`String(n)`, template
    literals). */
module Text {

  /** ECMAScript's WhiteSpace and LineTerminator characters, the set that
      `String.prototype.trim` removes. */
  const WhitespaceChars: set<char> := {
    '\U{0009}', '\U{000A}', '\U{000B}', '\U{000C}', '\U{000D}', '\U{0020}', '\U{00A0}', '\U{1680}',
    '\U{2000}', '\U{2001}', '\U{2002}', '\U{2003}', '\U{2004}', '\U{2005}', '\U{2006}', '\U{2007}',
    '\U{2008}', '\U{2009}', '\U{200A}', '\U{2028}', '\U{2029}', '\U{202F}', '\U{205F}', '\U{3000}', '\U{FEFF}'}

  predicate IsWhitespace(c: char) {
    c in WhitespaceChars
  }

  predicate AllWhitespace(s: string) {
    forall i :: 0 <= i < |s| ==> IsWhitespace(s[i])
  }

  /** The number of whitespace characters `s` starts with. */
  function Leading(s: string): (n: nat)
    ensures n <= |s|
  {
    if |s| > 0 && IsWhitespace(s[0]) then Leading(s[1..]) + 1 else 0
  }

  /** The number of whitespace characters `s` ends with. */
  function Trailing(s: string): (n: nat)
    ensures n <= |s|
  {
    if |s| > 0 && IsWhitespace(s[|s| - 1]) then Trailing(s[..|s| - 1]) + 1 else 0
  }

  /** The leading run is all whitespace and is followed by a character that
      is not. */
  lemma {:induction false} LeadingRun(s: string)
    ensures AllWhitespace(s[..Leading(s)])
    ensures Leading(s) == |s| || !IsWhitespace(s[Leading(s)])
  {
    if |s| > 0 && IsWhitespace(s[0]) {
      LeadingRun(s[1..]);
      assert s[..Leading(s)] == [s[0]] + s[1..][..Leading(s[1..])];
    }
  }

  /** The trailing run is all whitespace and follows a character that is not. */
  lemma {:induction false} TrailingRun(s: string)
    ensures AllWhitespace(s[|s| - Trailing(s)..])
    ensures Trailing(s) == |s| || !IsWhitespace(s[|s| - Trailing(s) - 1])
  {
    if |s| > 0 && IsWhitespace(s[|s| - 1]) {
      var t := s[..|s| - 1];
      TrailingRun(t);
      assert s[|s| - Trailing(s)..] == t[|t| - Trailing(t)..] + [s[|s| - 1]];
    }
  }

  /** `trimStart`: the suffix after the leading whitespace. */
  function TrimStart(s: string): (r: string)
    ensures |r| <= |s|
  {
    s[Leading(s)..]
  }

  /** `trimEnd`: the prefix before the trailing whitespace. */
  function TrimEnd(s: string): (r: string)
    ensures |r| <= |s|
  {
    s[..|s| - Trailing(s)]
  }

  /** `s.trim()`. */
  function Trim(s: string): (r: string)
    ensures |r| <= |s|
  {
    TrimEnd(TrimStart(s))
  }

  /** What `trim` keeps is the middle of `s` between a whitespace prefix and
      a whitespace suffix; it is empty exactly when `s` is all whitespace,
      and otherwise starts and ends with a character that is not whitespace. */
  lemma TrimSpec(s: string)
    ensures var a := Leading(s); var r := Trim(s);
      a + |r| <= |s| && r == s[a..a + |r|] && AllWhitespace(s[..a]) && AllWhitespace(s[a + |r|..])
    ensures Trim(s) == [] <==> AllWhitespace(s)
    ensures Trim(s) == [] || (!IsWhitespace(Trim(s)[0]) && !IsWhitespace(Trim(s)[|Trim(s)| - 1]))
  {
    var a := Leading(s);
    var t := TrimStart(s);
    var r := Trim(s);
    LeadingRun(s);
    TrailingRun(t);
    assert t[|t| - Trailing(t)..] == s[a + |r|..];
    assert r == s[a..a + |r|];
    if r == [] {
      assert t == t[|t| - Trailing(t)..];
      assert s[..a] == s;
    } else {
      assert r[0] == t[0] && t[0] == s[a];
      assert !IsWhitespace(s[a]);
    }
  }

  /** The half of `TrimSpec` most callers need. */
  lemma TrimEmpty(s: string)
    ensures Trim(s) == [] <==> AllWhitespace(s)
  {
    TrimSpec(s);
  }

  /** A text that neither starts nor ends with whitespace is its own trim. */
  lemma TrimUnchanged(s: string)
    requires |s| > 0 && !IsWhitespace(s[0]) && !IsWhitespace(s[|s| - 1])
    ensures Trim(s) == s
  {
    assert Leading(s) == 0;
    assert s[0..] == s;
    assert Trailing(s) == 0;
  }

  /** Whitespace in front of a text that does not start with whitespace is
      exactly the leading run. */
  lemma {:induction false} LeadingPadded(pad: string, s: string)
    requires AllWhitespace(pad) && (|s| == 0 || !IsWhitespace(s[0]))
    ensures Leading(pad + s) == |pad|
  {
    if |pad| == 0 {
      assert pad + s == s;
    } else {
      assert (pad + s)[0] == pad[0];
      assert (pad + s)[1..] == pad[1..] + s;
      LeadingPadded(pad[1..], s);
    }
  }

  /** Whitespace after a text that does not end with whitespace is exactly
      the trailing run. */
  lemma {:induction false} TrailingPadded(s: string, pad: string)
    requires AllWhitespace(pad) && (|s| == 0 || !IsWhitespace(s[|s| - 1]))
    ensures Trailing(s + pad) == |pad|
  {
    if |pad| == 0 {
      assert s + pad == s;
    } else {
      var t := s + pad;
      assert t[|t| - 1] == pad[|pad| - 1];
      assert t[..|t| - 1] == s + pad[..|pad| - 1];
      TrailingPadded(s, pad[..|pad| - 1]);
    }
  }

  /** Trimming removes any whitespace padding around a text that neither
      starts nor ends with whitespace, and only that. */
  lemma TrimAround(pad1: string, s: string, pad2: string)
    requires AllWhitespace(pad1) && AllWhitespace(pad2)
    requires |s| > 0 && !IsWhitespace(s[0]) && !IsWhitespace(s[|s| - 1])
    ensures Trim(pad1 + s + pad2) == s
  {
    var t := pad1 + s + pad2;
    assert t == pad1 + (s + pad2);
    LeadingPadded(pad1, s + pad2);
    assert TrimStart(t) == s + pad2;
    TrailingPadded(s, pad2);
    assert TrimEnd(s + pad2) == s;
  }

  /** `toLowerCase` on one character, for the ASCII and Latin-1 letters. */
  function LowerChar(c: char): (r: char)
    ensures ('A' <= c <= 'Z') ==> r as int == c as int + 32
    ensures !('A' <= c <= 'Z') && !(0xC0 <= c as int <= 0xDE && c as int != 0xD7) ==> r == c
  {
    if 'A' <= c <= 'Z' || (0xC0 <= c as int <= 0xDE && c as int != 0xD7) then
      (c as int + 32) as char
    else
      c
  }

  /** `s.toLowerCase()`, character by character. */
  function Lower(s: string): (r: string)
    ensures |r| == |s|
  {
    seq(|s|, i requires 0 <= i < |s| => LowerChar(s[i]))
  }

  lemma LowerIndex(s: string, i: nat)
    requires i < |s|
    ensures Lower(s)[i] == LowerChar(s[i])
  {
  }

  /** Lowering twice is lowering once. */
  lemma LowerIdempotent(s: string)
    ensures Lower(Lower(s)) == Lower(s)
  {
    forall i | 0 <= i < |s|
      ensures  Lower(Lower(s))[i] == Lower(s)[i]
    {
      LowerIndex(s, i);
      LowerIndex(Lower(s), i);
    }
  }

  /** Lowering never turns a non-whitespace character into whitespace, or the
      other way round, so it commutes with `trim`. */
  lemma LowerCharWhitespace(c: char)
    ensures IsWhitespace(LowerChar(c)) <==> IsWhitespace(c)
  {
  }

  /** Lowering keeps the whitespace runs at both ends. */
  lemma {:induction false} LeadingLower(s: string)
    ensures Leading(Lower(s)) == Leading(s)
  {
    if |s| > 0 {
      LowerCharWhitespace(s[0]);
      assert Lower(s)[1..] == Lower(s[1..]);
      LeadingLower(s[1..]);
    }
  }

  lemma {:induction false} TrailingLower(s: string)
    ensures Trailing(Lower(s)) == Trailing(s)
  {
    if |s| > 0 {
      LowerCharWhitespace(s[|s| - 1]);
      assert Lower(s)[..|s| - 1] == Lower(s[..|s| - 1]);
      TrailingLower(s[..|s| - 1]);
    }
  }

  /** Trimming and lowering commute. */
  lemma LowerTrim(s: string)
    ensures Trim(Lower(s)) == Lower(Trim(s))
  {
    var a := Leading(s);
    LeadingLower(s);
    assert TrimStart(Lower(s)) == Lower(s[a..]);
    var t := s[a..];
    TrailingLower(t);
    assert TrimEnd(Lower(t)) == Lower(t[..|t| - Trailing(t)]);
  }

  /** `s.startsWith(p)`. */
  predicate StartsWith(s: string, p: string) {
    |p| <= |s| && s[..|p|] == p
  }

  /** `s.includes(t)`: `t` occurs in `s` at some position. */
  predicate Contains(s: string, t: string) {
    exists i :: 0 <= i <= |s| - |t| && StartsWith(s[i..], t)
  }

  /** A string starts with itself, so it contains itself and every prefix. */
  lemma ContainsPrefix(s: string, p: string)
    requires StartsWith(s, p)
    ensures Contains(s, p)
  {
    assert s[0..] == s;
  }

  /** The index of the first occurrence of `c`. */
  function IndexOf(s: string, c: char): (r: nat)
    requires c in s
    ensures r < |s| && s[r] == c && c !in s[..r]
  {
    if s[0] == c then 0 else
      var k := IndexOf(s[1..], c);
      assert s[..k + 1] == [s[0]] + s[1..][..k];
      k + 1
  }

  /** `s.split(c)` for a one-character separator: never empty, and no piece
      holds the separator. */
  function Split(s: string, c: char): (r: seq<string>)
    ensures |r| >= 1
    ensures forall i :: 0 <= i < |r| ==> c !in r[i]
    decreases |s|
  {
    if c !in s then [s]
    else
      var i := IndexOf(s, c);
      [s[..i]] + Split(s[i + 1..], c)
  }

  /** A text holding the separator splits into at least two pieces, the
      first being what comes before the first separator. */
  lemma SplitAtSeparator(s: string, c: char)
    requires c in s
    ensures |Split(s, c)| >= 2 && Split(s, c)[0] == s[..IndexOf(s, c)]
  {
  }

  /** `xs.join(sep)`. */
  function Join(xs: seq<string>, sep: string): string
  {
    if |xs| == 0 then ""
    else if |xs| == 1 then xs[0]
    else xs[0] + sep + Join(xs[1..], sep)
  }

  lemma JoinCons(x: string, xs: seq<string>, sep: string)
    requires |xs| >= 1
    ensures Join([x] + xs, sep) == x + sep + Join(xs, sep)
  {
    assert ([x] + xs)[1..] == xs;
  }

  /** A character in neither the pieces nor the separator is not in the join. */
  lemma {:induction false} JoinWithout(xs: seq<string>, sep: string, c: char)
    requires c !in sep && forall i :: 0 <= i < |xs| ==> c !in xs[i]
    ensures c !in Join(xs, sep)
  {
    if |xs| > 1 {
      JoinWithout(xs[1..], sep, c);
      ConcatWithout(xs[0], sep, c);
      ConcatWithout(xs[0] + sep, Join(xs[1..], sep), c);
    }
  }

  lemma ConcatWithout(a: string, b: string, c: char)
    requires c !in a && c !in b
    ensures c !in a + b
  {
    forall i | 0 <= i < |a + b| ensures (a + b)[i] != c {
      if i < |a| { assert (a + b)[i] == a[i]; } else { assert (a + b)[i] == b[i - |a|]; }
    }
  }

  /** Three elements joined: each separator between two neighbours. */
  lemma JoinThree(a: string, b: string, c: string, sep: string)
    ensures Join([a, b, c], sep) == a + sep + b + sep + c
  {
    assert [a, b, c][1..] == [b, c] && [b, c][1..] == [c];
    assert Join([b, c], sep) == b + sep + c;
    assert Join([a, b, c], sep) == a + sep + (b + sep + c);
  }

  /** Joining one more element at the end. */
  lemma {:induction false} JoinSnoc(xs: seq<string>, x: string, sep: string)
    requires |xs| >= 1
    ensures Join(xs + [x], sep) == Join(xs, sep) + sep + x
  {
    if |xs| == 1 {
      assert xs + [x] == [xs[0]] + [x];
      JoinCons(xs[0], [x], sep);
    } else {
      assert xs + [x] == [xs[0]] + (xs[1..] + [x]);
      JoinCons(xs[0], xs[1..] + [x], sep);
      JoinSnoc(xs[1..], x, sep);
      JoinCons(xs[0], xs[1..], sep);
      assert [xs[0]] + xs[1..] == xs;
    }
  }

  /** Splitting a join on the same separator gives back the pieces, as long
      as no piece holds the separator. */
  lemma {:induction false} SplitJoin(xs: seq<string>, c: char)
    requires |xs| >= 1
    requires forall i :: 0 <= i < |xs| ==> c !in xs[i]
    ensures Split(Join(xs, [c]), c) == xs
  {
    if |xs| == 1 {
    } else {
      var s := Join(xs, [c]);
      var rest := Join(xs[1..], [c]);
      assert s == xs[0] + [c] + rest;
      assert c in s by { assert s[|xs[0]|] == c; }
      var i := IndexOf(s, c);
      assert i == |xs[0]| by {
        assert forall k :: 0 <= k < |xs[0]| ==> s[k] == xs[0][k];
        assert forall k :: 0 <= k < i ==> s[k] == s[..i][k];
        assert c !in xs[0];
      }
      assert s[..i] == xs[0];
      assert s[i + 1..] == rest;
      SplitJoin(xs[1..], c);
      assert [xs[0]] + xs[1..] == xs;
    }
  }

  /** Joining the pieces of a split on the separator gives back the string. */
  lemma {:induction false} JoinSplit(s: string, c: char)
    ensures Join(Split(s, c), [c]) == s
    decreases |s|
  {
    if c in s {
      var i := IndexOf(s, c);
      JoinSplit(s[i + 1..], c);
      JoinCons(s[..i], Split(s[i + 1..], c), [c]);
      assert s == s[..i] + [c] + s[i + 1..];
    }
  }

  /** The digits of a natural number, most significant first (`String(n)`). */
  function NatToString(n: nat): (r: string)
    ensures |r| >= 1
    ensures forall i :: 0 <= i < |r| ==> '0' <= r[i] <= '9'
    decreases n
  {
    var d := [(('0' as int) + n % 10) as char];
    if n < 10 then d else NatToString(n / 10) + d
  }

  /** An integer's decimal text, with a leading `-` when negative. */
  function IntToString(n: int): (r: string)
    ensures |r| >= 1
    ensures forall i :: 0 <= i < |r| ==> r[i] == '-' || '0' <= r[i] <= '9'
  {
    if n < 0 then "-" + NatToString(-n) else NatToString(n)
  }

  /** The value of a string of decimal digits. */
  function DigitsValue(s: string): int
  {
    if |s| == 0 then 0 else DigitsValue(s[..|s| - 1]) * 10 + (s[|s| - 1] as int - '0' as int)
  }

  /** Reading the digits back gives the number. */
  lemma {:induction false} NatToStringRoundTrip(n: nat)
    ensures DigitsValue(NatToString(n)) == n
    decreases n
  {
    var r := NatToString(n);
    if n >= 10 {
      NatToStringRoundTrip(n / 10);
      assert r[..|r| - 1] == NatToString(n / 10);
    }
  }
}
