/** The temporary key of a subscription: "init/" and the frame id in decimal. */
module DecimalKeys {
  function Digit(d: nat): (c: char)
    requires d < 10
    ensures c != '-'
  {
    (d + '0' as int) as char
  }

  function Digits(n: nat): (s: string)
    ensures n < 10 <==> |s| == 1
    ensures |s| > 0 && s[|s| - 1] == Digit(n % 10) && s[0] != '-'
  {
    if n < 10 then [Digit(n)] else Digits(n / 10) + [Digit(n % 10)]
  }

  function Decimal(n: int): string { if n < 0 then ['-'] + Digits(-n) else Digits(n) }

  const INIT := "init/"

  function InitKey(id: int): string { INIT + Decimal(id) }

  lemma InitKeyForm(id: int)
    ensures InitKey(id) == "init/" + Decimal(id)
    ensures id < 0 ==> Decimal(id) == "-" + Decimal(-id)
    ensures 0 <= id < 10 ==> Decimal(id) == ["0123456789"[id]]
    ensures id >= 10 ==> Decimal(id) == Decimal(id / 10) + ["0123456789"[id % 10]]
  {
    assert forall d: nat :: d < 10 ==> Digit(d) == "0123456789"[d];
  }

  predicate IsInit(key: string) { INIT <= key }

  lemma {:induction false} DigitsInjective(a: nat, b: nat)
    requires Digits(a) == Digits(b)
    ensures a == b
    decreases a
  {
    assert Digit(a % 10) == Digit(b % 10);
    assert a % 10 == b % 10;
    if a >= 10 && b >= 10 {
      var s := Digits(a);
      assert Digits(a / 10) == s[..|s| - 1] == Digits(b / 10);
      DigitsInjective(a / 10, b / 10);
    }
  }

  lemma DecimalInjective(a: int, b: int)
    requires Decimal(a) == Decimal(b)
    ensures a == b
  {
    assert Decimal(a)[0] == Decimal(b)[0];
    if a < 0 && b < 0 {
      assert Digits(-a) == Decimal(a)[1..] == Decimal(b)[1..];
      DigitsInjective(-a, -b);
    } else if a >= 0 && b >= 0 {
      DigitsInjective(a, b);
    }
  }

  lemma SuffixesEqual(p: string, s: string, t: string)
    requires p + s == p + t
    ensures s == t
  {
    assert s == (p + s)[|p|..] == (p + t)[|p|..] == t;
  }

  // Different frame ids wait under different keys.
  lemma InitKeyInjective(a: int, b: int)
    ensures InitKey(a) == InitKey(b) ==> a == b
    ensures IsInit(InitKey(a))
  {
    if InitKey(a) == InitKey(b) {
      SuffixesEqual(INIT, Decimal(a), Decimal(b));
      DecimalInjective(a, b);
    }
  }
}
