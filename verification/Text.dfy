/** Strings as the components use them: joining and splitting at a separator, and decimal numerals. */
module Text {
  /** `sep` is not a character of `s`. */
  predicate Free(s: string, sep: char) {
    sep !in s
  }

  predicate AllFree(parts: seq<string>, sep: char) {
    forall i :: 0 <= i < |parts| ==> Free(parts[i], sep)
  }

  lemma AllFreePieces(xs: seq<string>, i: nat, middle: string, j: nat, sep: char)
    requires AllFree(xs, sep) && Free(middle, sep) && i <= |xs| && j <= |xs|
    ensures AllFree(xs[..i] + [middle] + xs[j..], sep)
    ensures AllFree(xs[..i] + xs[j..], sep)
  {
  }

  function Join(parts: seq<string>, sep: char): string
    requires parts != []
  {
    if |parts| == 1 then parts[0] else parts[0] + [sep] + Join(parts[1..], sep)
  }

  lemma JoinTwo(a: string, b: string, sep: char)
    ensures Join([a, b], sep) == a + [sep] + b
  {
    assert [a, b][1..] == [b];
  }

  lemma JoinThree(a: string, b: string, c: string, sep: char)
    ensures Join([a, b, c], sep) == a + [sep] + (b + [sep] + c)
  {
    assert [a, b, c][1..] == [b, c];
    JoinTwo(b, c, sep);
  }

  /** The position of the first `sep` in `s`, or `|s|`. */
  function Find(s: string, sep: char): (i: nat)
    ensures i <= |s|
    ensures Free(s[..i], sep)
    ensures i < |s| ==> s[i] == sep
  {
    if s == [] || s[0] == sep then 0
    else
      assert s[..Find(s[1..], sep) + 1] == [s[0]] + s[1..][..Find(s[1..], sep)];
      Find(s[1..], sep) + 1
  }

  function Split(s: string, sep: char): (parts: seq<string>)
    ensures parts != [] && AllFree(parts, sep)
    ensures Join(parts, sep) == s
  {
    var i := Find(s, sep);
    if i == |s| then
      assert s[..i] == s;
      [s]
    else
      var rest := Split(s[i + 1..], sep);
      assert ([s[..i]] + rest)[1..] == rest;
      assert s == s[..i] + [sep] + s[i + 1..];
      [s[..i]] + rest
  }

  /** A prefix without separators, followed by a separator, ends at the first separator. */
  lemma {:induction false} FindAfter(head: string, sep: char, tail: string)
    requires Free(head, sep)
    ensures Find(head + [sep] + tail, sep) == |head|
    decreases |head|
  {
    var s := head + [sep] + tail;
    if head != [] {
      assert s[0] == head[0] && s[0] in head;
      assert s[1..] == head[1..] + [sep] + tail;
      assert forall c :: c in head[1..] ==> c in head;
      FindAfter(head[1..], sep, tail);
    }
  }

  lemma FindNone(s: string, sep: char)
    requires Free(s, sep)
    ensures Find(s, sep) == |s|
  {
    assert forall i :: 0 <= i < |s| ==> s[i] in s;
  }

  /** Splitting undoes joining. */
  lemma {:induction false} SplitJoin(parts: seq<string>, sep: char)
    requires parts != [] && AllFree(parts, sep)
    ensures Split(Join(parts, sep), sep) == parts
    decreases |parts|
  {
    var s := Join(parts, sep);
    if |parts| == 1 {
      FindNone(s, sep);
    } else {
      var rest := Join(parts[1..], sep);
      FindAfter(parts[0], sep, rest);
      assert s[|parts[0]| + 1..] == rest && s[..|parts[0]|] == parts[0];
      SplitJoin(parts[1..], sep);
      assert parts == [parts[0]] + parts[1..];
    }
  }

  /** So a joined string has one reading. */
  lemma JoinInjective(xs: seq<string>, ys: seq<string>, sep: char)
    requires xs != [] && ys != [] && AllFree(xs, sep) && AllFree(ys, sep)
    requires Join(xs, sep) == Join(ys, sep)
    ensures xs == ys
  {
    SplitJoin(xs, sep);
    SplitJoin(ys, sep);
  }

  // ----- decimal numerals -----

  function DigitChar(d: nat): char
    requires d < 10
  {
    '0' + d as char
  }

  predicate IsDigit(c: char) {
    '0' <= c <= '9'
  }

  function DigitValue(c: char): nat
    requires IsDigit(c)
  {
    c as nat - '0' as nat
  }

  predicate IsNumeral(s: string) {
    s != [] && forall i :: 0 <= i < |s| ==> IsDigit(s[i])
  }

  /** `%d` of a non-negative number: no leading zeros. */
  function Decimal(n: nat): (s: string)
    ensures IsNumeral(s)
  {
    if n < 10 then [DigitChar(n)] else Decimal(n / 10) + [DigitChar(n % 10)]
  }

  /** `%d` of any integer. */
  function DecimalInt(n: int): string {
    if n < 0 then "-" + Decimal(-n) else Decimal(n)
  }

  function Value(s: string): nat
    requires forall i :: 0 <= i < |s| ==> IsDigit(s[i])
  {
    if s == [] then 0 else 10 * Value(s[..|s| - 1]) + DigitValue(s[|s| - 1])
  }

  lemma {:induction false} ValueDecimal(n: nat)
    ensures Value(Decimal(n)) == n
  {
    var s := Decimal(n);
    if n < 10 {
      assert s[..|s| - 1] == [];
    } else {
      ValueDecimal(n / 10);
      assert s[..|s| - 1] == Decimal(n / 10);
    }
  }

  /** No zero in front, except that of zero itself. */
  lemma {:induction false} DecimalHasNoLeadingZero(n: nat)
    ensures if n == 0 then Decimal(n) == "0" else Decimal(n)[0] != '0'
  {
    if n >= 10 {
      DecimalHasNoLeadingZero(n / 10);
    }
  }

  lemma DecimalIntInjective(m: int, n: int)
    requires DecimalInt(m) == DecimalInt(n)
    ensures m == n
  {
    DecimalIntSign(m);
    DecimalIntSign(n);
    ValueDecimal(if m < 0 then -m else m);
    ValueDecimal(if n < 0 then -n else n);
  }

  lemma DecimalIntSign(n: int)
    ensures DecimalInt(n) != [] && (DecimalInt(n)[0] == '-' <==> n < 0)
    ensures DecimalInt(n)[if n < 0 then 1 else 0..] == Decimal(if n < 0 then -n else n)
  {
    if n >= 0 {
      assert IsDigit(Decimal(n)[0]);
    }
  }

  lemma NumeralFree(s: string, sep: char)
    requires IsNumeral(s) && !IsDigit(sep)
    ensures Free(s, sep)
  {
  }
}
