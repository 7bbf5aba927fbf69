/** The string operations of the demo script: `str.split(sep)` with a
    one-character separator, `str.split()` with no argument, and the
    `"%03d"` conversion used for output file names. */
module Text {

  /** The characters `str.split()` treats as whitespace on a Python 2 byte
      string: space, tab, line feed, vertical tab, form feed, carriage return. */
  predicate IsSpace(c: char) {
    c == ' ' || ('\t' <= c <= '\r')
  }

  /** The number of occurrences of `c` in `s`. */
  function Count(s: string, c: char): nat {
    if s == [] then 0 else (if s[0] == c then 1 else 0) + Count(s[1..], c)
  }

  // ---------------------------------------------------------------------
  // str.split(sep)

  /** `s.split(sep)`: the pieces of `s` between occurrences of `sep`,
      including the empty pieces before a leading, after a trailing and
      between two adjacent separators. */
  function SplitOn(s: string, sep: char): (r: seq<string>)
    ensures |r| == Count(s, sep) + 1
    ensures forall i :: 0 <= i < |r| ==> sep !in r[i]
  {
    if s == [] then [""]
    else
      var rest := SplitOn(s[1..], sep);
      if s[0] == sep then [""] + rest
      else [[s[0]] + rest[0]] + rest[1..]
  }

  /** `sep.join(ps)`, the inverse of `SplitOn`. */
  function JoinWith(ps: seq<string>, sep: char): string
    requires |ps| >= 1
  {
    if |ps| == 1 then ps[0] else ps[0] + [sep] + JoinWith(ps[1..], sep)
  }

  /** Joining the pieces again gives back the text. */
  lemma {:induction false} JoinSplit(s: string, sep: char)
    ensures JoinWith(SplitOn(s, sep), sep) == s
  {
    if s != [] {
      var rest := SplitOn(s[1..], sep);
      JoinSplit(s[1..], sep);
      if s[0] != sep && |rest| > 1 {
        assert SplitOn(s, sep)[1..] == rest[1..];
      }
    }
  }

  /** A separator between two texts separates their pieces. */
  lemma {:induction false} SplitAppend(a: string, b: string, sep: char)
    ensures SplitOn(a + [sep] + b, sep) == SplitOn(a, sep) + SplitOn(b, sep)
  {
    if a == [] {
      assert [sep] + b == ([] + [sep] + b);
      assert ([sep] + b)[1..] == b;
    } else {
      assert (a + [sep] + b)[1..] == a[1..] + [sep] + b;
      SplitAppend(a[1..], b, sep);
    }
  }

  /** Splitting joined pieces that do not contain the separator gives them back. */
  lemma {:induction false} SplitJoin(ps: seq<string>, sep: char)
    requires |ps| >= 1
    requires forall i :: 0 <= i < |ps| ==> sep !in ps[i]
    ensures SplitOn(JoinWith(ps, sep), sep) == ps
  {
    SplitPiece(ps[0], sep);
    if |ps| > 1 {
      SplitJoin(ps[1..], sep);
      SplitAppend(ps[0], JoinWith(ps[1..], sep), sep);
    }
  }

  /** A text without the separator is a single piece. */
  lemma {:induction false} SplitPiece(p: string, sep: char)
    requires sep !in p
    ensures SplitOn(p, sep) == [p]
  {
    if p != [] {
      SplitPiece(p[1..], sep);
      assert [p[0]] + p[1..] == p;
    }
  }

  /** A text that ends with the separator has at least two pieces, the last one empty. */
  lemma EndsWithSeparator(s: string, sep: char)
    requires 0 < |s| && s[|s| - 1] == sep
    ensures |SplitOn(s, sep)| >= 2 && SplitOn(s, sep)[|SplitOn(s, sep)| - 1] == []
  {
    var a := s[..|s| - 1];
    assert s == a + [sep] + [];
    SplitAppend(a, [], sep);
  }

  // ---------------------------------------------------------------------
  // str.split()

  /** `s.split()`: the maximal runs of non-whitespace characters of `s`, in order. */
  function Tokens(s: string): (r: seq<string>)
    ensures forall i :: 0 <= i < |r| ==> r[i] != [] && forall j :: 0 <= j < |r[i]| ==> !IsSpace(r[i][j])
    ensures |s| > 0 && !IsSpace(s[0]) ==> |r| > 0 && |r[0]| > 0 && r[0][0] == s[0]
  {
    if s == [] then []
    else if IsSpace(s[0]) then Tokens(s[1..])
    else
      var rest := Tokens(s[1..]);
      if |s| > 1 && !IsSpace(s[1]) then [[s[0]] + rest[0]] + rest[1..]
      else [[s[0]]] + rest
  }

  /** A blank line, or one holding only whitespace, has no tokens. */
  lemma {:induction false} BlankHasNoTokens(s: string)
    requires forall i :: 0 <= i < |s| ==> IsSpace(s[i])
    ensures Tokens(s) == []
  {
    if s != [] {
      BlankHasNoTokens(s[1..]);
    }
  }

  /** A whitespace character between two texts separates their tokens. */
  lemma {:induction false} TokensAppend(a: string, sp: char, b: string)
    requires IsSpace(sp)
    ensures Tokens(a + [sp] + b) == Tokens(a) + Tokens(b)
  {
    if a == [] {
      assert a + [sp] + b == [sp] + b;
      assert ([sp] + b)[1..] == b;
    } else {
      assert (a + [sp] + b)[1..] == a[1..] + [sp] + b;
      TokensAppend(a[1..], sp, b);
    }
  }

  /** A word without whitespace is its own single token. */
  lemma {:induction false} TokensOfWord(w: string)
    requires w != [] && forall i :: 0 <= i < |w| ==> !IsSpace(w[i])
    ensures Tokens(w) == [w]
  {
    assert [w[0]] + w[1..] == w;
    if |w| > 1 {
      TokensOfWord(w[1..]);
    } else {
      assert w == [w[0]];
      assert Tokens(w[1..]) == [];
    }
  }

  /** Tokenising words joined by a space gives back the words, in order. */
  lemma {:induction false} TokensOfJoin(ws: seq<string>)
    requires |ws| >= 1
    requires forall i :: 0 <= i < |ws| ==> ws[i] != [] && forall c :: c in ws[i] ==> !IsSpace(c)
    ensures Tokens(JoinWith(ws, ' ')) == ws
  {
    TokensOfWord(ws[0]);
    if |ws| > 1 {
      TokensOfJoin(ws[1..]);
      TokensAppend(ws[0], ' ', JoinWith(ws[1..], ' '));
    }
  }

  // ---------------------------------------------------------------------
  // "%03d" % n

  predicate IsDigit(c: char) {
    '0' <= c <= '9'
  }

  function DigitChar(d: nat): char
    requires d < 10
  {
    "0123456789"[d]
  }

  function DigitValue(c: char): nat
    requires IsDigit(c)
  {
    (c as int - '0' as int) as nat
  }

  /** The decimal numeral of `n`, without leading zeros. */
  function Decimal(n: nat): (s: string)
    ensures 1 <= |s| && forall i :: 0 <= i < |s| ==> IsDigit(s[i])
    ensures n < 100 ==> |s| <= 2
    ensures n < 1000 ==> |s| <= 3
  {
    if n < 10 then [DigitChar(n)] else Decimal(n / 10) + [DigitChar(n % 10)]
  }

  /** The number a string of decimal digits denotes. */
  function DecimalValue(s: string): nat
    requires forall i :: 0 <= i < |s| ==> IsDigit(s[i])
  {
    if s == [] then 0 else DecimalValue(s[..|s| - 1]) * 10 + DigitValue(s[|s| - 1])
  }

  /** `"%03d" % n`: the decimal numeral of `n`, left-padded with zeros to three characters. */
  function Format03d(n: nat): string {
    var d := Decimal(n);
    seq(if |d| < 3 then 3 - |d| else 0, _ => '0') + d
  }

  lemma {:induction false} DecimalRoundTrip(n: nat)
    ensures DecimalValue(Decimal(n)) == n
  {
    if n >= 10 {
      DecimalRoundTrip(n / 10);
      assert Decimal(n)[..|Decimal(n)| - 1] == Decimal(n / 10);
      assert DigitValue(DigitChar(n % 10)) == n % 10;
    } else {
      assert DigitValue(DigitChar(n)) == n;
    }
  }

  /** The numeral has no leading zero, and two or three digits from 10 and 100 on. */
  lemma {:induction false} DecimalShape(n: nat)
    ensures n >= 10 ==> Decimal(n)[0] != '0' && |Decimal(n)| >= 2
    ensures n >= 100 ==> |Decimal(n)| >= 3
  {
    if n >= 10 {
      DecimalShape(n / 10);
      assert Decimal(n)[0] == Decimal(n / 10)[0];
      if n / 10 < 10 {
        assert Decimal(n / 10) == [DigitChar(n / 10)];
        assert "0123456789"[n / 10] != '0';
      }
    }
  }

  lemma {:induction false} LeadingZero(s: string)
    requires forall i :: 0 <= i < |s| ==> IsDigit(s[i])
    ensures DecimalValue("0" + s) == DecimalValue(s)
  {
    if s != [] {
      assert ("0" + s)[..|"0" + s| - 1] == "0" + s[..|s| - 1];
      LeadingZero(s[..|s| - 1]);
    }
  }

  /** `"%03d"` gives at least three digits, exactly three below 1000, a
      leading zero only below 100, and reading them back as a decimal number
      gives `n`. */
  lemma Format03dCorrect(n: nat)
    ensures var s := Format03d(n);
      |s| >= 3 && (n < 1000 <==> |s| == 3) &&
      (forall i :: 0 <= i < |s| ==> IsDigit(s[i])) &&
      (s[0] == '0' <==> n < 100) && (n >= 100 ==> s == Decimal(n)) &&
      DecimalValue(s) == n
  {
    var d := Decimal(n);
    DecimalRoundTrip(n);
    DecimalShape(n);
    if |d| == 1 {
      LeadingZero(d);
      LeadingZero("0" + d);
      assert Format03d(n) == "0" + ("0" + d);
    } else if |d| == 2 {
      LeadingZero(d);
      assert Format03d(n) == "0" + d;
    } else {
      assert Format03d(n) == d;
    }
  }

  /** Different numbers give different `"%03d"` strings. */
  lemma Format03dInjective(a: nat, b: nat)
    requires Format03d(a) == Format03d(b)
    ensures a == b
  {
    Format03dCorrect(a);
    Format03dCorrect(b);
  }
}
