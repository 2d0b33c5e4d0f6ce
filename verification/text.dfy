/** Decimal numbers and delimiter-separated text. */
module Text {

  function DigitChar(d: nat): char
    requires d < 10
  {
    "0123456789"[d]
  }

  function DigitValue(c: char): (d: nat)
    requires '0' <= c <= '9'
    ensures d < 10
  {
    c as int - '0' as int
  }

  predicate IsDigits(s: string) {
    forall i :: 0 <= i < |s| ==> '0' <= s[i] <= '9'
  }

  /** The decimal numeral of `n`, without leading zeros. */
  function Decimal(n: nat): (s: string)
    ensures s != [] && IsDigits(s)
  {
    if n < 10 then [DigitChar(n)] else Decimal(n / 10) + [DigitChar(n % 10)]
  }

  function DecimalValue(s: string): nat
    requires IsDigits(s)
  {
    if s == [] then 0 else 10 * DecimalValue(s[..|s| - 1]) + DigitValue(s[|s| - 1])
  }

  lemma {:induction false} DecimalRoundTrip(n: nat)
    ensures DecimalValue(Decimal(n)) == n
  {
    var s := Decimal(n);
    if n < 10 {
      assert s[..0] == [];
    } else {
      DecimalRoundTrip(n / 10);
      assert s[..|s| - 1] == Decimal(n / 10);
    }
  }

  predicate StartsWith(s: string, prefix: string) {
    prefix <= s
  }

  /** The pieces of `s` between occurrences of `c`; one more than there are occurrences. */
  function Split(s: string, c: char): (r: seq<string>)
    ensures |r| >= 1
  {
    if s == [] then [[]]
    else
      var rest := Split(s[1..], c);
      if s[0] == c then [[]] + rest else [[s[0]] + rest[0]] + rest[1..]
  }

  predicate Free(s: string, c: char) {
    forall i :: 0 <= i < |s| ==> s[i] != c
  }

  /** A piece without the delimiter, then the delimiter, splits off. */
  lemma {:induction false} SplitFirst(piece: string, c: char, rest: string)
    requires Free(piece, c)
    ensures Split(piece + [c] + rest, c) == [piece] + Split(rest, c)
  {
    if piece == [] {
      assert [] + [c] + rest == [c] + rest && ([c] + rest)[1..] == rest;
    } else {
      SplitFirst(piece[1..], c, rest);
      var s, tail := piece + [c] + rest, Split(rest, c);
      assert s[0] == piece[0] && s[1..] == piece[1..] + [c] + rest;
      assert ([piece[1..]] + tail)[1..] == tail;
      assert [piece[0]] + piece[1..] == piece;
    }
  }

  lemma {:induction false} SplitLast(piece: string, c: char)
    requires Free(piece, c)
    ensures Split(piece, c) == [piece]
  {
    if piece != [] {
      SplitLast(piece[1..], c);
      assert [piece[0]] + piece[1..] == piece;
    }
  }
}
