/**
 * Text helpers the contracts rely on: Python's `str(int)` in decimal, its inverse,
 * and cutting a record at the first separator.
 */
module Text {
  import opened Common

  predicate IsDigit(c: char)
  {
    '0' <= c <= '9'
  }

  function DigitChar(d: nat): (c: char)
    requires d < 10
    ensures IsDigit(c)
  {
    ['0', '1', '2', '3', '4', '5', '6', '7', '8', '9'][d]
  }

  function DigitValue(c: char): (d: nat)
    requires IsDigit(c)
    ensures d < 10
  {
    (c as int - '0' as int) as nat
  }

  /** The decimal digits of a natural number, most significant first, without leading zeros. */
  function NatToString(n: nat): (s: string)
    ensures |s| > 0
    ensures forall i :: 0 <= i < |s| ==> IsDigit(s[i])
  {
    if n < 10 then [DigitChar(n)] else NatToString(n / 10) + [DigitChar(n % 10)]
  }

  /** Python's `str(n)` for an integer: a minus sign before the digits of a negative number. */
  function IntToString(n: int): (s: string)
    ensures |s| > 0
    ensures forall i :: 0 <= i < |s| ==> IsDigit(s[i]) || (i == 0 && s[i] == '-')
  {
    if n < 0 then "-" + NatToString(-n) else NatToString(n)
  }

  predicate AllDigits(s: string)
  {
    forall i :: 0 <= i < |s| ==> IsDigit(s[i])
  }

  /** The value of a non-empty string of decimal digits. */
  function DigitsValue(s: string): nat
    requires |s| > 0 && AllDigits(s)
  {
    if |s| == 1 then DigitValue(s[0])
    else 10 * DigitsValue(s[..|s| - 1]) + DigitValue(s[|s| - 1])
  }

  /** Reads back what `IntToString` writes; None for anything else that is not a number. */
  function ParseInt(s: string): Option<int>
  {
    if |s| > 0 && AllDigits(s) then Some(DigitsValue(s) as int)
    else if |s| > 1 && s[0] == '-' && AllDigits(s[1..]) then Some(-(DigitsValue(s[1..]) as int))
    else None
  }

  lemma {:induction false} DigitsValueOfNatToString(n: nat)
    ensures DigitsValue(NatToString(n)) == n
  {
    if n >= 10 {
      var s := NatToString(n / 10) + [DigitChar(n % 10)];
      assert s[..|s| - 1] == NatToString(n / 10);
      DigitsValueOfNatToString(n / 10);
    }
  }

  /** Decimal rendering and parsing are inverse. */
  lemma ParseIntToString(n: int)
    ensures ParseInt(IntToString(n)) == Some(n)
  {
    if n < 0 {
      var s := IntToString(n);
      assert s[1..] == NatToString(-n);
      assert !IsDigit(s[0]);
      DigitsValueOfNatToString(-n);
    } else {
      DigitsValueOfNatToString(n);
    }
  }

  /** A decimal rendering holds only digits and a minus sign, so no separator of the contracts. */
  lemma IntToStringHasNo(n: int, sep: char)
    requires !IsDigit(sep) && sep != '-'
    ensures sep !in IntToString(n)
  {
  }

  /**
   * The text before the first `sep` and the text after it; None when `s` holds no `sep`.
   * This is `s.split(sep, 1)` for a string that has the separator.
   */
  function SplitOnce(s: string, sep: char): (r: Option<(string, string)>)
    ensures r.None? <==> sep !in s
    ensures r.Some? ==> s == r.value.0 + [sep] + r.value.1 && sep !in r.value.0
  {
    if s == [] then None
    else if s[0] == sep then Some(([], s[1..]))
    else
      match SplitOnce(s[1..], sep)
      case None => None
      case Some(p) => Some(([s[0]] + p.0, p.1))
  }

  /** Cutting at the separator recovers the two parts joined by it, when the first has none. */
  lemma {:induction false} SplitOnceJoin(a: string, sep: char, b: string)
    requires sep !in a
    ensures SplitOnce(a + [sep] + b, sep) == Some((a, b))
  {
    if a != [] {
      assert (a + [sep] + b)[1..] == a[1..] + [sep] + b;
      SplitOnceJoin(a[1..], sep, b);
      assert [a[0]] + a[1..] == a;
    }
  }

  /**
   * Two fields joined by a separator, `a + sep + b`; a record that is never empty and
   * whose first field is recovered by cutting at the first separator when it holds none.
   */
  function Join(a: string, sep: char, b: string): (s: string)
    ensures |s| == |a| + 1 + |b| && sep in s
    ensures sep !in a ==> SplitOnce(s, sep) == Some((a, b))
  {
    if sep !in a then
      SplitOnceJoin(a, sep, b);
      a + [sep] + b
    else
      assert (a + [sep] + b)[|a|] == sep;
      a + [sep] + b
  }

  /** `sep.join(fields)` for a non-empty list of fields. */
  function Joined(fields: seq<string>, sep: char): (s: string)
    requires |fields| > 0
    ensures |fields| > 1 ==> sep in s
  {
    if |fields| == 1 then fields[0]
    else Join(fields[0], sep, Joined(fields[1..], sep))
  }

  /** `s.split(sep, n)`: at most `n` cuts, each at the first separator left, and the rest as the last part. */
  function SplitN(s: string, sep: char, n: nat): (parts: seq<string>)
    ensures 1 <= |parts| <= n + 1
    ensures forall i :: 0 <= i < |parts| - 1 ==> sep !in parts[i]
    decreases n
  {
    if n == 0 then [s]
    else
      match SplitOnce(s, sep)
      case None => [s]
      case Some(p) => [p.0] + SplitN(p.1, sep, n - 1)
  }

  /** Cutting a join as many times as it has separators between fields gives the fields back, when none but the last holds the separator. */
  lemma {:induction false} SplitNJoined(fields: seq<string>, sep: char)
    requires |fields| > 0
    requires forall i :: 0 <= i < |fields| - 1 ==> sep !in fields[i]
    ensures SplitN(Joined(fields, sep), sep, |fields| - 1) == fields
  {
    if |fields| > 1 {
      var rest := Joined(fields[1..], sep);
      assert sep !in fields[0];
      assert SplitOnce(Joined(fields, sep), sep) == Some((fields[0], rest));
      assert forall i :: 0 <= i < |fields[1..]| - 1 ==> sep !in fields[1..][i] by {
        forall i | 0 <= i < |fields[1..]| - 1 ensures sep !in fields[1..][i] {
          assert fields[1..][i] == fields[i + 1];
        }
      }
      SplitNJoined(fields[1..], sep);
      assert [fields[0]] + fields[1..] == fields;
    }
  }

  /** The first part of a join is the first field followed by the separator. */
  lemma JoinedFirst(fields: seq<string>, sep: char)
    requires |fields| > 1
    ensures Joined(fields, sep) == fields[0] + [sep] + Joined(fields[1..], sep)
  {
  }

  /** The first part of a split is the text before the first separator. */
  lemma SplitNFirst(s: string, sep: char, n: nat)
    requires n > 0 && sep in s
    ensures SplitN(s, sep, n)[0] == SplitOnce(s, sep).value.0
  {
  }

  /** A join whose first field holds the separator is first cut inside that field. */
  lemma JoinedCutsFirstField(fields: seq<string>, sep: char)
    requires |fields| > 1 && sep in fields[0]
    ensures sep in Joined(fields, sep)
    ensures SplitOnce(Joined(fields, sep), sep).value.0 == SplitOnce(fields[0], sep).value.0
  {
    var rest := Joined(fields[1..], sep);
    var cut := SplitOnce(fields[0], sep).value;
    JoinedFirst(fields, sep);
    assert Joined(fields, sep) == cut.0 + [sep] + (cut.1 + [sep] + rest);
    SplitOnceJoin(cut.0, sep, cut.1 + [sep] + rest);
  }
}
