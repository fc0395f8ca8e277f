/** Text helpers that stand in for the Rust standard library's string
    formatting: `[String]::join`, decimal formatting of integers with `{}`,
    and counting the occurrences of a character. */
module Text {

  /** `parts.join(sep)`: the parts in order with `sep` between neighbours. */
  function Join(parts: seq<string>, sep: string): (r: string)
    ensures |parts| == 0 ==> r == ""
  {
    if |parts| == 0 then ""
    else if |parts| == 1 then parts[0]
    else parts[0] + sep + Join(parts[1..], sep)
  }

  /** Joining two non-empty lists is joining each and gluing the results with
      one separator: the law that makes appending a clause or concatenating
      two filters render without any extra text. */
  lemma {:induction false} JoinAppend(a: seq<string>, b: seq<string>, sep: string)
    requires |a| > 0 && |b| > 0
    ensures Join(a + b, sep) == Join(a, sep) + sep + Join(b, sep)
  {
    assert (a + b)[0] == a[0];
    if |a| == 1 {
      assert (a + b)[1..] == b;
    } else {
      assert (a + b)[1..] == a[1..] + b;
      JoinAppend(a[1..], b, sep);
    }
  }

  /** Two parts are joined by one separator. */
  lemma JoinPair(x: string, y: string, sep: string)
    ensures Join([x, y], sep) == x + sep + y
  {
  }

  /** The decimal digit `d` as a character. */
  function DigitChar(d: nat): (c: char)
    requires d < 10
    ensures '0' <= c <= '9' && (c as int) - ('0' as int) == d
  {
    (('0' as int) + d) as char
  }

  predicate IsDigit(c: char)
  {
    '0' <= c <= '9'
  }

  predicate AllDigits(s: string)
  {
    forall i :: 0 <= i < |s| ==> IsDigit(s[i])
  }

  /** `format!("{}", n)` for a non-negative integer: its decimal digits, most
      significant first, with no leading zero. */
  function NatSql(n: nat): (r: string)
    ensures |r| > 0 && AllDigits(r)
    ensures r[0] != '0' || n == 0
  {
    if n < 10 then [DigitChar(n)] else NatSql(n / 10) + [DigitChar(n % 10)]
  }

  /** The number a string of decimal digits denotes. */
  function DigitsValue(s: string): nat
    requires AllDigits(s)
  {
    if s == [] then 0
    else DigitsValue(s[..|s| - 1]) * 10 + ((s[|s| - 1] as int) - ('0' as int))
  }

  /** Reading back the decimal text of `n` gives `n`. */
  lemma {:induction false} NatSqlRoundTrip(n: nat)
    ensures DigitsValue(NatSql(n)) == n
  {
    var s := NatSql(n);
    if n >= 10 {
      NatSqlRoundTrip(n / 10);
      assert s[..|s| - 1] == NatSql(n / 10);
    }
  }

  /** Different numbers have different decimal texts. */
  lemma NatSqlInjective(m: nat, n: nat)
    ensures NatSql(m) == NatSql(n) ==> m == n
  {
    NatSqlRoundTrip(m);
    NatSqlRoundTrip(n);
  }

  /** `format!("{}", i)` for a signed integer. */
  function IntSql(i: int): string
  {
    if i < 0 then "-" + NatSql(-i) else NatSql(i)
  }

  /** The number of occurrences of `c` in `s`. */
  function Count(s: string, c: char): nat
  {
    if s == [] then 0 else (if s[0] == c then 1 else 0) + Count(s[1..], c)
  }

  lemma {:induction false} CountAppend(s: string, t: string, c: char)
    ensures Count(s + t, c) == Count(s, c) + Count(t, c)
  {
    if s != [] {
      assert (s + t)[1..] == s[1..] + t;
      CountAppend(s[1..], t, c);
    } else {
      assert s + t == t;
    }
  }

  /** A string of decimal digits holds no other character. */
  lemma {:induction false} CountDigits(s: string, c: char)
    requires AllDigits(s) && !IsDigit(c)
    ensures Count(s, c) == 0
  {
    if s != [] {
      CountDigits(s[1..], c);
    }
  }

  /** `s` with every occurrence of `c` written twice, the usual way SQL
      escapes a quote character inside a quoted literal or identifier. */
  function Double(s: string, c: char): string
  {
    if s == [] then ""
    else (if s[0] == c then [c, c] else [s[0]]) + Double(s[1..], c)
  }

  /** A string without `c` is left as it is. */
  lemma {:induction false} DoubleAbsent(s: string, c: char)
    requires forall i :: 0 <= i < |s| ==> s[i] != c
    ensures Double(s, c) == s
  {
    if s != [] {
      DoubleAbsent(s[1..], c);
    }
  }
}
