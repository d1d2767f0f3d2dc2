/** Strings: where a character first occurs, decimal numerals, and the order strings sort in. */
module Text {
  import opened Wrappers

  /** Where c first occurs in s. */
  function Index(s: string, c: char): (i: Option<nat>)
    ensures match i
            case None => c !in s
            case Some(k) => k < |s| && s[k] == c && c !in s[..k]
  {
    if s == "" then None
    else if s[0] == c then Some(0)
    else
      match Index(s[1..], c)
      case None => None
      case Some(k) =>
        assert s[..k + 1] == [s[0]] + s[1..][..k];
        Some(k + 1)
  }

  lemma {:induction false} IndexIsFirst(a: string, c: char, b: string)
    requires c !in a
    ensures Index(a + [c] + b, c) == Some(|a|)
  {
    if a != "" {
      IndexIsFirst(a[1..], c, b);
      assert (a + [c] + b)[1..] == a[1..] + [c] + b;
    }
  }

  /** What stands before the first c and behind it is determined by the whole. */
  lemma {:induction false} FirstCutIsUnique(a: string, b: string, c: char, a': string, b': string)
    requires c !in a && c !in a' && a + [c] + b == a' + [c] + b'
    ensures a == a' && b == b'
  {
    IndexIsFirst(a, c, b);
    IndexIsFirst(a', c, b');
    assert a == (a + [c] + b)[..|a|] && b == (a + [c] + b)[|a| + 1..];
    assert a' == (a' + [c] + b')[..|a'|] && b' == (a' + [c] + b')[|a'| + 1..];
  }

  /** So is what stands before the last c and behind it. */
  lemma {:induction false} LastCutIsUnique(a: string, b: string, c: char, a': string, b': string)
    requires c !in b && c !in b' && a + [c] + b == a' + [c] + b'
    ensures a == a' && b == b'
    decreases |b|
  {
    var s, s' := a + [c] + b, a' + [c] + b';
    assert s[|s| - 1] == if b == "" then c else b[|b| - 1];
    assert s'[|s'| - 1] == if b' == "" then c else b'[|b'| - 1];
    if b == "" || b' == "" {
      assert b == b';
      assert a == s[..|s| - 1] && a' == s'[..|s'| - 1];
    } else {
      var f, f' := b[..|b| - 1], b'[..|b'| - 1];
      assert s[..|s| - 1] == a + [c] + f && s'[..|s'| - 1] == a' + [c] + f';
      LastCutIsUnique(a, f, c, a', f');
      assert b == f + [s[|s| - 1]] && b' == f' + [s'[|s'| - 1]];
    }
  }

  // ------------------------------------------------------ decimal numerals

  function Digit(d: nat): char
    requires d < 10
  {
    "0123456789"[d]
  }

  function Decimal(n: nat): (s: string)
    ensures s != "" && '_' !in s
  {
    if n < 10 then [Digit(n)] else Decimal(n / 10) + [Digit(n % 10)]
  }

  lemma {:induction false} DecimalIsInjective(m: nat, n: nat)
    requires Decimal(m) == Decimal(n)
    ensures m == n
  {
    var s, t := Decimal(m), Decimal(n);
    assert Digit(m % 10) == s[|s| - 1] == t[|t| - 1] == Digit(n % 10);
    if m >= 10 && n >= 10 {
      assert Decimal(m / 10) == s[..|s| - 1] && Decimal(n / 10) == t[..|t| - 1];
      DecimalIsInjective(m / 10, n / 10);
    }
  }

  // ------------------------------------------------------ the order of strings

  predicate AtMost(a: string, b: string) {
    a == "" || (b != "" && (a[0] < b[0] || (a[0] == b[0] && AtMost(a[1..], b[1..]))))
  }

  lemma {:induction false} AtMostIsAntisymmetric(a: string, b: string)
    requires AtMost(a, b) && AtMost(b, a)
    ensures a == b
  {
    if a != "" {
      AtMostIsAntisymmetric(a[1..], b[1..]);
      assert a == [a[0]] + a[1..] && b == [b[0]] + b[1..];
    }
  }
}
