/** The java.lang operations on text and numbers that the subsystem handlers
    call: startsWith, replace(char, char), trim, split on one character,
    Integer.parseInt, Long.parseLong, Boolean.parseBoolean, toString and the
    (int) narrowing of a long. Strings are sequences of UTF-16 code units. */
module JavaText {
  import opened Failures

  const INT_MIN: int := -0x8000_0000
  const INT_MAX: int := 0x7fff_ffff
  const LONG_MIN: int := -0x8000_0000_0000_0000
  const LONG_MAX: int := 0x7fff_ffff_ffff_ffff

  predicate StartsWith(s: string, prefix: string) {
    |prefix| <= |s| && s[..|prefix|] == prefix
  }

  // ---------------------------------------------------------------- replace

  /** String.replace(char, char): every occurrence of `from` becomes `to`. */
  function Replace(s: string, from: char, to: char): (r: string)
    ensures |r| == |s|
    ensures forall i :: 0 <= i < |s| ==> r[i] == (if s[i] == from then to else s[i])
  {
    if s == [] then [] else [if s[0] == from then to else s[0]] + Replace(s[1..], from, to)
  }

  lemma ReplaceConcat(a: string, b: string, from: char, to: char)
    ensures Replace(a + b, from, to) == Replace(a, from, to) + Replace(b, from, to)
  {
    var l, r := Replace(a + b, from, to), Replace(a, from, to) + Replace(b, from, to);
    assert |l| == |r|;
    forall i | 0 <= i < |l| ensures l[i] == r[i] {
      if i < |a| { assert (a + b)[i] == a[i]; } else { assert (a + b)[i] == b[i - |a|]; }
    }
  }

  lemma ReplaceAbsent(s: string, from: char, to: char)
    requires from !in s
    ensures Replace(s, from, to) == s
  {
    var r := Replace(s, from, to);
    forall i | 0 <= i < |s| ensures r[i] == s[i] {
      assert s[i] in s;
    }
  }

  // ---------------------------------------------------------------- trim

  /** The characters String.trim removes: code units up to and including the space. */
  predicate Blank(c: char) {
    c <= ' '
  }

  /** A string String.trim leaves as it is. */
  predicate Trimmed(s: string) {
    s == [] || (!Blank(s[0]) && !Blank(s[|s| - 1]))
  }

  /** How many blanks s starts with. */
  function LeadingBlanks(s: string): (n: nat)
    ensures n <= |s|
    ensures n < |s| ==> !Blank(s[n])
  {
    if s != [] && Blank(s[0]) then 1 + LeadingBlanks(s[1..]) else 0
  }

  function TrimStart(s: string): (r: string)
    ensures |r| <= |s|
    ensures r == [] || !Blank(r[0])
  {
    s[LeadingBlanks(s)..]
  }

  /** How many blanks s ends with. */
  function TrailingBlanks(s: string): (n: nat)
    ensures n <= |s|
    ensures n < |s| ==> !Blank(s[|s| - 1 - n])
  {
    if s != [] && Blank(s[|s| - 1]) then 1 + TrailingBlanks(s[..|s| - 1]) else 0
  }

  function TrimEnd(s: string): (r: string)
    ensures |r| <= |s|
    ensures r == [] || !Blank(r[|r| - 1])
  {
    s[..|s| - TrailingBlanks(s)]
  }

  /** String.trim */
  function Trim(s: string): (r: string)
    ensures Trimmed(r)
  {
    TrimEnd(TrimStart(s))
  }

  predicate AllBlank(s: string) {
    forall i :: 0 <= i < |s| ==> Blank(s[i])
  }

  lemma {:induction false} LeadingBlanksPadded(pre: string, x: string)
    requires AllBlank(pre)
    requires x == [] || !Blank(x[0])
    ensures LeadingBlanks(pre + x) == |pre|
  {
    if pre != [] {
      assert (pre + x)[0] == pre[0];
      assert (pre + x)[1..] == pre[1..] + x;
      LeadingBlanksPadded(pre[1..], x);
    } else {
      assert pre + x == x;
    }
  }

  lemma TrimStartPadded(pre: string, x: string)
    requires AllBlank(pre)
    requires x == [] || !Blank(x[0])
    ensures TrimStart(pre + x) == x
  {
    LeadingBlanksPadded(pre, x);
    assert (pre + x)[|pre|..] == x;
  }

  lemma {:induction false} TrailingBlanksPadded(x: string, post: string)
    requires AllBlank(post)
    requires x == [] || !Blank(x[|x| - 1])
    ensures TrailingBlanks(x + post) == |post|
  {
    if post != [] {
      var t := x + post;
      assert t[|t| - 1] == post[|post| - 1];
      assert t[..|t| - 1] == x + post[..|post| - 1];
      TrailingBlanksPadded(x, post[..|post| - 1]);
    } else {
      assert x + post == x;
    }
  }

  lemma TrimEndPadded(x: string, post: string)
    requires AllBlank(post)
    requires x == [] || !Blank(x[|x| - 1])
    ensures TrimEnd(x + post) == x
  {
    TrailingBlanksPadded(x, post);
    assert (x + post)[..|x|] == x;
  }


  /** Trim removes exactly the blanks added around a trimmed string. */
  lemma TrimPadded(pre: string, s: string, post: string)
    requires AllBlank(pre) && AllBlank(post)
    requires Trimmed(s)
    ensures Trim(pre + s + post) == s
  {
    assert pre + s + post == pre + (s + post);
    if s == [] {
      assert s + post == [] + post;
      TrimStartPadded(pre + post, []);
      assert pre + post + [] == pre + s + post;
    } else {
      assert (s + post)[0] == s[0];
      TrimStartPadded(pre, s + post);
      TrimEndPadded(s, post);
    }
  }

  // ---------------------------------------------------------------- split

  /** The pieces of s between the occurrences of sep, empty pieces included
      (what String.split(sep, -1) returns). */
  function Pieces(s: string, sep: char): (r: seq<string>)
    ensures |r| >= 1
    ensures forall i :: 0 <= i < |r| ==> sep !in r[i]
  {
    if s == [] then [""]
    else
      var p := Pieces(s[..|s| - 1], sep);
      if s[|s| - 1] == sep then p + [""]
      else p[..|p| - 1] + [p[|p| - 1] + [s[|s| - 1]]]
  }

  /** The pieces joined back with sep between them. */
  function Join(ps: seq<string>, sep: char): string
    requires |ps| >= 1
  {
    if |ps| == 1 then ps[0] else Join(ps[..|ps| - 1], sep) + [sep] + ps[|ps| - 1]
  }

  function DropTrailingEmpty(ps: seq<string>): (r: seq<string>)
    ensures |r| <= |ps| && r == ps[..|r|]
    ensures r == [] || r[|r| - 1] != ""
    ensures forall i :: |r| <= i < |ps| ==> ps[i] == ""
  {
    if ps != [] && ps[|ps| - 1] == "" then DropTrailingEmpty(ps[..|ps| - 1]) else ps
  }

  /** String.split with a one-character separator and no limit: a string
      without the separator gives itself; otherwise the pieces, with the
      empty pieces at the end removed. */
  function Split(s: string, sep: char): seq<string>
  {
    if sep !in s then [s] else DropTrailingEmpty(Pieces(s, sep))
  }

  /** A last character that is not the separator extends the last piece. */
  lemma PiecesPlainLast(t: string, sep: char)
    requires t != [] && t[|t| - 1] != sep
    ensures var p := Pieces(t[..|t| - 1], sep);
            Pieces(t, sep) == p[..|p| - 1] + [p[|p| - 1] + [t[|t| - 1]]]
  {
  }

  /** Extending the last of some pieces by `init`, then by `c`, is extending it by `init + [c]`. */
  lemma ExtendLast(p: seq<string>, q: seq<string>, init: string, c: char)
    requires |p| >= 1 && q == p[..|p| - 1] + [p[|p| - 1] + init]
    ensures q[..|q| - 1] + [q[|q| - 1] + [c]] == p[..|p| - 1] + [p[|p| - 1] + (init + [c])]
  {
    assert q[..|q| - 1] == p[..|p| - 1];
    assert q[|q| - 1] + [c] == p[|p| - 1] + (init + [c]);
  }

  lemma {:induction false} PiecesAppendPlain(s: string, b: string, sep: char)
    requires sep !in b
    ensures var p := Pieces(s, sep);
            Pieces(s + b, sep) == p[..|p| - 1] + [p[|p| - 1] + b]
    decreases |b|
  {
    if b == [] {
      var p := Pieces(s, sep);
      assert s + b == s;
      assert p[|p| - 1] + b == p[|p| - 1];
      assert p[..|p| - 1] + [p[|p| - 1]] == p;
    } else {
      var init, c := b[..|b| - 1], b[|b| - 1];
      assert init + [c] == b;
      assert b[|b| - 1] in b;
      assert sep !in init by {
        forall i | 0 <= i < |init| ensures init[i] != sep { assert init[i] == b[i]; }
      }
      PiecesAppendPlain(s, init, sep);
      var t := s + b;
      assert t[..|t| - 1] == s + init && t[|t| - 1] == c;
      var p, q := Pieces(s, sep), Pieces(s + init, sep);
      PiecesPlainLast(t, sep);
      assert Pieces(t, sep) == q[..|q| - 1] + [q[|q| - 1] + [c]];
      ExtendLast(p, q, init, c);
      assert Pieces(t, sep) == p[..|p| - 1] + [p[|p| - 1] + b];
    }
  }

  lemma {:induction false} PiecesOfJoin(ps: seq<string>, sep: char)
    requires |ps| >= 1
    requires forall i :: 0 <= i < |ps| ==> sep !in ps[i]
    ensures Pieces(Join(ps, sep), sep) == ps
  {
    if |ps| == 1 {
      PiecesAppendPlain("", ps[0], sep);
      assert "" + ps[0] == ps[0];
    } else {
      var init, last := ps[..|ps| - 1], ps[|ps| - 1];
      var j := Join(init, sep);
      assert Join(ps, sep) == (j + [sep]) + last;
      PiecesOfJoin(init, sep);
      assert (j + [sep])[..|j + [sep]| - 1] == j;
      assert Pieces(j + [sep], sep) == init + [""];
      assert (init + [""])[..|init|] == init;
      PiecesAppendPlain(j + [sep], last, sep);
      assert "" + last == last;
      assert init + [last] == ps;
    }
  }

  lemma {:induction false} SepInJoin(ps: seq<string>, sep: char)
    requires |ps| >= 2
    ensures sep in Join(ps, sep)
  {
    var j := Join(ps[..|ps| - 1], sep);
    assert Join(ps, sep)[|j|] == sep;
  }

  /** Splitting undoes joining when no piece holds the separator and the
      last piece is not empty. */
  lemma SplitJoin(ps: seq<string>, sep: char)
    requires |ps| >= 1
    requires forall i :: 0 <= i < |ps| ==> sep !in ps[i]
    requires ps[|ps| - 1] != ""
    ensures Split(Join(ps, sep), sep) == ps
  {
    if |ps| == 1 {
    } else {
      SepInJoin(ps, sep);
      PiecesOfJoin(ps, sep);
    }
  }

  /** Removing the last character of a join removes it from the last piece. */
  lemma {:induction false} JoinDropLast(ps: seq<string>, sep: char)
    requires |ps| >= 1 && |ps[|ps| - 1]| >= 1
    ensures var j := Join(ps, sep); var l := ps[|ps| - 1];
            |j| >= 1 && j[..|j| - 1] == Join(ps[..|ps| - 1] + [l[..|l| - 1]], sep)
  {
    var l := ps[|ps| - 1];
    var qs := ps[..|ps| - 1] + [l[..|l| - 1]];
    if |ps| == 1 {
    } else {
      assert qs[..|qs| - 1] == ps[..|ps| - 1];
      var j0 := Join(ps[..|ps| - 1], sep);
      assert Join(ps, sep) == j0 + [sep] + l;
      assert (j0 + [sep] + l)[..|j0| + 1 + |l| - 1] == j0 + [sep] + l[..|l| - 1];
    }
  }

  // ---------------------------------------------------------------- numbers

  predicate IsDigit(c: char) {
    '0' <= c <= '9'
  }

  predicate AllDigits(s: string) {
    forall i :: 0 <= i < |s| ==> IsDigit(s[i])
  }

  /** The value of a string of decimal digits, most significant first. */
  function DigitsValue(s: string): nat
    requires AllDigits(s)
  {
    if s == [] then 0 else DigitsValue(s[..|s| - 1]) * 10 + (s[|s| - 1] as int - '0' as int)
  }

  /** Integer.parseInt (lo, hi the int range) and Long.parseLong (the long
      range) in radix 10: an optional sign, then at least one digit, and the
      value must lie in the range; anything else is a NumberFormatException. */
  function ParseDecimal(s: string, lo: int, hi: int): (r: Result<int>)
    ensures r.Ok? ==> lo <= r.value <= hi
    ensures r.Err? ==> r.error == NumberFormat(s)
    ensures s == [] ==> r.Err?
  {
    if s == [] then Err(NumberFormat(s))
    else
      var signed := s[0] == '-' || s[0] == '+';
      var digits := if signed then s[1..] else s;
      if digits == [] || !AllDigits(digits) then Err(NumberFormat(s))
      else
        var v: int := if s[0] == '-' then -(DigitsValue(digits) as int) else DigitsValue(digits);
        if lo <= v <= hi then Ok(v) else Err(NumberFormat(s))
  }

  function ParseInt(s: string): Result<int> {
    ParseDecimal(s, INT_MIN, INT_MAX)
  }

  function ParseLong(s: string): Result<int> {
    ParseDecimal(s, LONG_MIN, LONG_MAX)
  }

  function DigitChar(d: nat): char
    requires d < 10
  {
    ('0' as int + d) as char
  }

  /** The decimal digits of n, without leading zeros. */
  function NatToString(n: nat): (r: string)
    ensures |r| >= 1 && AllDigits(r)
    ensures r[0] != '-' && r[0] != '+'
  {
    if n < 10 then [DigitChar(n)] else NatToString(n / 10) + [DigitChar(n % 10)]
  }

  /** Integer.toString and Long.toString */
  function IntToString(n: int): string {
    if n < 0 then "-" + NatToString(-n) else NatToString(n)
  }

  lemma {:induction false} DigitsOfNat(n: nat)
    ensures DigitsValue(NatToString(n)) == n
  {
    var s := NatToString(n);
    if n >= 10 {
      DigitsOfNat(n / 10);
      assert s[..|s| - 1] == NatToString(n / 10);
    }
  }

  /** Parsing the decimal text of a number in range gives the number back. */
  lemma ParseOfToString(n: int, lo: int, hi: int)
    requires lo <= n <= hi
    ensures ParseDecimal(IntToString(n), lo, hi) == Ok(n)
  {
    var s := IntToString(n);
    if n < 0 {
      var t := NatToString(-n);
      DigitsOfNat(-n);
      assert s[0] == '-' && s[1..] == t;
      assert DigitsValue(s[1..]) == -n;
    } else {
      var t := NatToString(n);
      DigitsOfNat(n);
      assert s == t && s[0] != '-' && s[0] != '+';
      assert DigitsValue(s) == n;
    }
  }

  /** The (int) cast of a long: the low 32 bits, read as two's complement. */
  function ToInt32(x: int): (r: int)
    ensures INT_MIN <= r <= INT_MAX
    ensures (x - r) % 0x1_0000_0000 == 0
    ensures INT_MIN <= x <= INT_MAX ==> r == x
  {
    (x - INT_MIN) % 0x1_0000_0000 + INT_MIN
  }

  // ---------------------------------------------------------------- booleans

  function LowerAscii(c: char): char {
    if 'A' <= c <= 'Z' then (c as int - 'A' as int + 'a' as int) as char else c
  }

  /** Boolean.parseBoolean: true exactly for "true" in any letter case. */
  function ParseBoolean(s: string): (r: bool)
    ensures r ==> |s| == 4
    ensures s == "true" || s == "TRUE" ==> r
  {
    |s| == 4 && forall i :: 0 <= i < 4 ==> LowerAscii(s[i]) == "true"[i]
  }

  /** Boolean.toString */
  function BoolToString(b: bool): string {
    if b then "true" else "false"
  }

  lemma ParseBooleanOfToString(b: bool)
    ensures ParseBoolean(BoolToString(b)) == b
  {
  }
}
