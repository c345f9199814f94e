/**
 * String helpers the generator gets from Python: `str(n)` on a non-negative
 * integer, `str.count` on a one-character needle, and `str.split(sep, 1)`.
 */
module Text {
  import opened Basics

  predicate IsDigit(c: char)
  {
    '0' <= c <= '9'
  }

  /** The decimal digit character for a value below ten. */
  function DigitChar(d: nat): (c: char)
    requires d < 10
    ensures IsDigit(c)
  {
    (d + '0' as int) as char
  }

  /** `str(n)` for n >= 0: decimal digits, most significant first. */
  function NatToString(n: nat): (s: string)
    ensures |s| >= 1
    ensures forall i :: 0 <= i < |s| ==> IsDigit(s[i])
    ensures n < 10 <==> |s| == 1
  {
    if n < 10 then [DigitChar(n)] else NatToString(n / 10) + [DigitChar(n % 10)]
  }

  /** Distinct numbers print differently, so `str` keeps ranks and scores apart. */
  lemma {:induction false} NatToStringInjective(m: nat, n: nat)
    requires NatToString(m) == NatToString(n)
    ensures m == n
  {
    var s := NatToString(m);
    if m < 10 {
      assert n < 10;
      assert DigitChar(m) == s[0] == DigitChar(n);
    } else {
      assert n >= 10;
      var p, q := NatToString(m / 10), NatToString(n / 10);
      assert s == p + [DigitChar(m % 10)] == q + [DigitChar(n % 10)];
      assert |p| == |q|;
      assert DigitChar(m % 10) == s[|s| - 1] == DigitChar(n % 10);
      assert p == s[..|s| - 1] == q;
      NatToStringInjective(m / 10, n / 10);
    }
  }

  /** `s.count(c)` for a single character c. */
  function Count(s: string, c: char): nat
  {
    if s == [] then 0 else (if s[0] == c then 1 else 0) + Count(s[1..], c)
  }

  lemma {:induction false} CountAppend(s: string, t: string, c: char)
    ensures Count(s + t, c) == Count(s, c) + Count(t, c)
  {
    if s == [] {
      assert s + t == t;
    } else {
      assert (s + t)[1..] == s[1..] + t;
      CountAppend(s[1..], t, c);
    }
  }

  lemma {:induction false} CountAbsent(s: string, c: char)
    requires c !in s
    ensures Count(s, c) == 0
  {
    if s != [] {
      assert s[0] != c;
      CountAbsent(s[1..], c);
    }
  }

  /**
   * `s.split(sep, 1)` unpacked into two names: the part before the first
   * `sep` and the rest. Python raises a ValueError when `sep` does not occur,
   * since the split then yields a single part; that is `None` here.
   */
  function SplitFirst(s: string, sep: char): (r: Option<(string, string)>)
  {
    if s == [] then None
    else if s[0] == sep then Some(([], s[1..]))
    else match SplitFirst(s[1..], sep)
      case None => None
      case Some(parts) => Some(([s[0]] + parts.0, parts.1))
  }

  /** Splitting a joined string gives back its parts when the left part is free of the separator. */
  lemma {:induction false} SplitFirstJoin(a: string, sep: char, b: string)
    requires sep !in a
    ensures SplitFirst(a + [sep] + b, sep) == Some((a, b))
  {
    if a == [] {
      assert a + [sep] + b == [sep] + b;
    } else {
      assert (a + [sep] + b)[1..] == a[1..] + [sep] + b;
      SplitFirstJoin(a[1..], sep, b);
      assert [a[0]] + a[1..] == a;
    }
  }

  /** Conversely, a successful split always cuts at the first separator. */
  lemma {:induction false} SplitFirstParts(s: string, sep: char)
    requires SplitFirst(s, sep).Some?
    ensures var parts := SplitFirst(s, sep).value;
      s == parts.0 + [sep] + parts.1 && sep !in parts.0
  {
    if s[0] != sep {
      SplitFirstParts(s[1..], sep);
      var parts := SplitFirst(s[1..], sep).value;
      assert s == [s[0]] + (parts.0 + [sep] + parts.1);
    }
  }

  /** Splitting fails exactly when the separator is absent. */
  lemma {:induction false} SplitFirstDefined(s: string, sep: char)
    ensures SplitFirst(s, sep).Some? <==> sep in s
  {
    if s != [] && s[0] != sep {
      SplitFirstDefined(s[1..], sep);
      assert s == [s[0]] + s[1..];
    }
  }
}
