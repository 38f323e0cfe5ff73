/** String helpers the test relies on: decimal rendering of integers (as
    absl::StrCat and absl::StrFormat's %d print an int64), absl::StrJoin over
    integer lists, absl::c_replace on a string, and the newline-joined lines of
    a raw-string template. Alongside them, the facts needed to read a rendered
    string back: decimal rendering and joining are injective, and a string
    built by concatenation can be split again at a character its first part
    cannot contain. */
module Text {

  predicate IsDigit(c: char) { '0' <= c <= '9' }

  /** A character that can occur in the decimal rendering of an integer. */
  predicate IsNumeral(c: char) { IsDigit(c) || c == '-' }

  function DigitChar(d: nat): (c: char)
    requires d < 10
    ensures IsDigit(c) && c as int - '0' as int == d
  {
    (d + '0' as int) as char
  }

  /** The decimal digits of n, most significant first, without leading zeros. */
  function NatToString(n: nat): (s: string)
    ensures |s| > 0
    ensures n < 10 <==> |s| == 1
    ensures forall i :: 0 <= i < |s| ==> IsDigit(s[i])
  {
    if n < 10 then [DigitChar(n)] else NatToString(n / 10) + [DigitChar(n % 10)]
  }

  /** The decimal rendering of n, with a leading '-' when n is negative. */
  function IntToString(n: int): (s: string)
    ensures |s| > 0
    ensures s[0] == '-' <==> n < 0
    ensures forall i :: 0 <= i < |s| ==> IsNumeral(s[i])
    ensures n >= 0 ==> forall i :: 0 <= i < |s| ==> IsDigit(s[i])
  {
    if n < 0 then "-" + NatToString(-n) else NatToString(n)
  }

  lemma {:induction false} NatToStringInjective(m: nat, n: nat)
    requires NatToString(m) == NatToString(n)
    ensures m == n
  {
    if m >= 10 && n >= 10 {
      var sm, sn := NatToString(m), NatToString(n);
      assert DigitChar(m % 10) == sm[|sm| - 1] == sn[|sn| - 1] == DigitChar(n % 10);
      assert NatToString(m / 10) == sm[..|sm| - 1] == sn[..|sn| - 1] == NatToString(n / 10);
      NatToStringInjective(m / 10, n / 10);
    } else if m < 10 && n < 10 {
      assert DigitChar(m) == NatToString(m)[0] == NatToString(n)[0] == DigitChar(n);
    }
  }

  lemma IntToStringInjective(m: int, n: int)
    requires IntToString(m) == IntToString(n)
    ensures m == n
  {
    var s := IntToString(m);
    if m < 0 && n < 0 {
      assert NatToString(-m) == s[1..] == NatToString(-n);
      NatToStringInjective(-m, -n);
    } else if m >= 0 && n >= 0 {
      NatToStringInjective(m, n);
    }
  }

  /** absl::StrJoin(xs, [sep]): the renderings of the elements with sep between
      consecutive ones; empty for an empty list. */
  function Join(xs: seq<int>, sep: char): (s: string)
    ensures |xs| > 0 <==> |s| > 0
    ensures !IsNumeral(sep) ==> (|xs| > 1 <==> sep in s)
  {
    if |xs| == 0 then ""
    else if |xs| == 1 then IntToString(xs[0])
    else IntToString(xs[0]) + ([sep] + Join(xs[1..], sep))
  }

  /** Each character of a joined list is part of a number or the separator,
      and a digit or the separator when no element is negative. */
  lemma {:induction false} JoinChars(xs: seq<int>, sep: char)
    ensures forall i :: 0 <= i < |Join(xs, sep)| ==> IsNumeral(Join(xs, sep)[i]) || Join(xs, sep)[i] == sep
    ensures (forall k :: 0 <= k < |xs| ==> xs[k] >= 0) ==>
              forall i :: 0 <= i < |Join(xs, sep)| ==> IsDigit(Join(xs, sep)[i]) || Join(xs, sep)[i] == sep
  {
    if |xs| > 1 {
      JoinChars(xs[1..], sep);
    }
  }

  lemma JoinNoMinus(xs: seq<int>, sep: char)
    requires forall k :: 0 <= k < |xs| ==> xs[k] >= 0
    requires sep != '-'
    ensures '-' !in Join(xs, sep)
  {
    JoinChars(xs, sep);
  }

  /** Two concatenations are equal part by part when the first character of
      each second part does not occur in the other first part. */
  lemma SplitAtFirst(u1: string, r1: string, u2: string, r2: string)
    requires u1 + r1 == u2 + r2
    requires |r1| > 0 && |r2| > 0
    requires r1[0] !in u2 && r2[0] !in u1
    ensures u1 == u2 && r1 == r2
  {
    assert u1 == (u1 + r1)[..|u1|];
    assert u2 == (u2 + r2)[..|u2|];
    assert r1 == (u1 + r1)[|u1|..];
    assert r2 == (u2 + r2)[|u2|..];
  }

  /** The same split when the distinguishing character is the second one of
      each second part (a '_' followed by a letter after an '_'-joined list). */
  lemma SplitAtSecond(u1: string, r1: string, u2: string, r2: string)
    requires u1 + r1 == u2 + r2
    requires |r1| > 1 && |r2| > 1
    requires r1[1] !in u2 && r2[1] !in u1
    requires r1[1] != r2[0] && r2[1] != r1[0]
    ensures u1 == u2 && r1 == r2
  {
    assert u1 == (u1 + r1)[..|u1|];
    assert u2 == (u2 + r2)[..|u2|];
    assert r1 == (u1 + r1)[|u1|..];
    assert r2 == (u2 + r2)[|u2|..];
  }

  lemma DropCommonPrefix(p: string, x: string, y: string)
    requires p + x == p + y
    ensures x == y
  {
    assert x == (p + x)[|p|..];
    assert y == (p + y)[|p|..];
  }

  lemma DropCommonSuffix(x: string, y: string, q: string)
    requires x + q == y + q
    ensures x == y
  {
    assert x == (x + q)[..|x|];
    assert y == (y + q)[..|y|];
  }

  /** Two joined lists of at least two elements agree on their first
      elements and on the joins of the rest. */
  lemma JoinHeadSplit(xs: seq<int>, ys: seq<int>, sep: char)
    requires !IsNumeral(sep) && |xs| > 1 && |ys| > 1
    requires Join(xs, sep) == Join(ys, sep)
    ensures xs[0] == ys[0] && Join(xs[1..], sep) == Join(ys[1..], sep)
  {
    var x0, y0 := IntToString(xs[0]), IntToString(ys[0]);
    var xr, yr := [sep] + Join(xs[1..], sep), [sep] + Join(ys[1..], sep);
    SplitAtFirst(x0, xr, y0, yr);
    IntToStringInjective(xs[0], ys[0]);
    DropCommonPrefix([sep], Join(xs[1..], sep), Join(ys[1..], sep));
  }

  /** A joined list is read back uniquely, whatever the signs of its elements,
      as long as the separator is not part of a number. */
  lemma {:induction false} JoinInjective(xs: seq<int>, ys: seq<int>, sep: char)
    requires !IsNumeral(sep)
    requires Join(xs, sep) == Join(ys, sep)
    ensures xs == ys
  {
    if |xs| == 0 || |ys| == 0 {
    } else if |xs| == 1 && |ys| == 1 {
      IntToStringInjective(xs[0], ys[0]);
    } else if |xs| == 1 || |ys| == 1 {
      // one side holds a separator, the other does not
    } else {
      JoinHeadSplit(xs, ys, sep);
      JoinInjective(xs[1..], ys[1..], sep);
      assert xs == [xs[0]] + xs[1..];
      assert ys == [ys[0]] + ys[1..];
    }
  }

  /** absl::c_replace(s, from, to): every occurrence of `from` becomes `to`,
      everything else stays where it was. */
  function Replace(s: string, from: char, to: char): (r: string)
    ensures |r| == |s|
    ensures forall i :: 0 <= i < |s| ==> r[i] == if s[i] == from then to else s[i]
  {
    if s == [] then [] else [if s[0] == from then to else s[0]] + Replace(s[1..], from, to)
  }

  lemma ReplaceRemoves(s: string, from: char, to: char)
    requires from != to
    ensures from !in Replace(s, from, to)
  {
  }

  lemma ReplaceAbsent(s: string, from: char, to: char)
    requires from !in s
    ensures Replace(s, from, to) == s
  {
    var r := Replace(s, from, to);
    assert forall i :: 0 <= i < |s| ==> r[i] == s[i];
  }

  /** t is a suffix of s. */
  predicate HasSuffix(s: string, t: string)
  {
    |s| >= |t| && s[|s| - |t|..] == t
  }

  lemma HasSuffixPrepend(a: string, r: string, t: string)
    requires HasSuffix(r, t)
    ensures HasSuffix(a + r, t)
  {
    assert (a + r)[|a + r| - |t|..] == r[|r| - |t|..];
  }

  lemma HasSuffixTransitive(s: string, t: string, u: string)
    requires HasSuffix(s, t) && HasSuffix(t, u)
    ensures HasSuffix(s, u)
  {
    assert s[|s| - |u|..] == s[|s| - |t|..][|t| - |u|..];
  }

  /** Two suffixes of the same length are the same string. */
  lemma SuffixesOfEqualLength(s: string, t: string, u: string)
    requires HasSuffix(s, t) && |t| == |u|
    ensures HasSuffix(s, u) <==> t == u
  {
  }

  /** Replacing a character that a suffix lacks leaves the suffix in place. */
  lemma ReplaceKeepsSuffix(s: string, t: string, from: char, to: char)
    requires HasSuffix(s, t) && from !in t
    ensures HasSuffix(Replace(s, from, to), t)
  {
    var r := Replace(s, from, to);
    forall i | 0 <= i < |t|
      ensures r[|s| - |t|..][i] == t[i]
    {
      assert s[|s| - |t| + i] == t[i];
    }
  }

  /** The lines of a raw-string template joined with newlines. */
  function JoinLines(lines: seq<string>): string
  {
    if |lines| == 0 then ""
    else if |lines| == 1 then lines[0]
    else lines[0] + "\n" + JoinLines(lines[1..])
  }

  /** sub occurs somewhere in s. */
  ghost predicate Contains(s: string, sub: string)
  {
    exists p, q :: s == p + sub + q
  }

  lemma ContainsPart(p: string, sub: string, q: string)
    ensures Contains(p + sub + q, sub)
  {
  }

  lemma ContainsTransitive(s: string, m: string, sub: string)
    requires Contains(s, m) && Contains(m, sub)
    ensures Contains(s, sub)
  {
    var p1, q1 :| s == p1 + m + q1;
    var p2, q2 :| m == p2 + sub + q2;
    assert s == (p1 + p2) + sub + (q2 + q1);
  }

  /** Every line of a template occurs in the joined text. */
  lemma {:induction false} JoinLinesContains(lines: seq<string>, k: nat)
    requires k < |lines|
    ensures Contains(JoinLines(lines), lines[k])
  {
    if |lines| == 1 {
      assert JoinLines(lines) == "" + lines[0] + "";
    } else if k == 0 {
      assert JoinLines(lines) == "" + lines[0] + ("\n" + JoinLines(lines[1..]));
    } else {
      JoinLinesContains(lines[1..], k - 1);
      var p, q :| JoinLines(lines[1..]) == p + lines[k] + q;
      assert JoinLines(lines) == (lines[0] + "\n" + p) + lines[k] + q;
    }
  }
}
