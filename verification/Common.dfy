/** Small shared vocabulary: optional values, and the decimal text JavaScript prints for an integer. */
module Common {

  datatype Option<+T> = None | Some(value: T)

  /** JavaScript's `String(n)` for a non-negative integer. */
  function NatText(n: nat): (s: string)
    ensures |s| >= 1
    ensures n < 10 ==> |s| == 1
    ensures n >= 10 ==> |s| >= 2
    ensures forall c | c in s :: '0' <= c <= '9'
  {
    if n < 10 then [Digit(n)] else NatText(n / 10) + [Digit(n % 10)]
  }

  function Digit(n: nat): (c: char)
    requires n < 10
    ensures '0' <= c <= '9'
  {
    '0' + n as char
  }

  /** JavaScript's `String(n)` for any integer. */
  function IntText(n: int): (s: string)
    ensures |s| >= 1
    ensures s[0] == '-' <==> n < 0
    ensures forall c | c in s :: c == '-' || '0' <= c <= '9'
  {
    if n < 0 then "-" + NatText(-n)
    else
      var s := NatText(n);
      assert s[0] in s;
      s
  }

  /** JavaScript's `String(n).padStart(2, '0')`. */
  function Pad2(n: int): (s: string)
    ensures |s| >= 2
    ensures 0 <= n < 100 ==> |s| == 2
    ensures forall c | c in s :: c == '-' || '0' <= c <= '9'
  {
    var s := IntText(n);
    if n >= 100 then assert |NatText(n / 10)| >= 2; s
    else if n >= 10 then assert |NatText(n / 10)| == 1; s
    else if |s| < 2 then "0" + s else s
  }

  /** The number a text of digits stands for. */
  function Value(s: string): int {
    if s == "" then 0 else 10 * Value(s[..|s| - 1]) + (s[|s| - 1] as int - '0' as int)
  }

  lemma {:induction false} ValueOfNat(n: nat)
    ensures Value(NatText(n)) == n
  {
    if n < 10 {
      assert NatText(n)[..0] == "";
    } else {
      ValueOfNat(n / 10);
      assert NatText(n)[..|NatText(n)| - 1] == NatText(n / 10);
    }
  }

  /** Two digits, of which a number below ten leaves the first zero. */
  lemma ValueOfPad2(n: nat)
    requires n < 100
    ensures |Pad2(n)| == 2 && Value(Pad2(n)) == n
  {
    Pad2Cases(n);
    if n < 10 {
      assert Pad2(n)[..1] == ['0'] && ['0'][..0] == "";
    } else {
      ValueOfNat(n);
    }
  }

  lemma {:induction false} NatTextInjective(a: nat, b: nat)
    requires NatText(a) == NatText(b)
    ensures a == b
  {
    var s, t := NatText(a), NatText(b);
    if a < 10 || b < 10 {
      assert s[0] == t[0];
    } else {
      assert s[..|s| - 1] == NatText(a / 10) && t[..|t| - 1] == NatText(b / 10);
      assert s[|s| - 1] == Digit(a % 10) && t[|t| - 1] == Digit(b % 10);
      NatTextInjective(a / 10, b / 10);
    }
  }

  lemma IntTextInjective(a: int, b: int)
    requires IntText(a) == IntText(b)
    ensures a == b
  {
    if a < 0 {
      assert IntText(a)[1..] == NatText(-a) && IntText(b)[1..] == NatText(-b);
      NatTextInjective(-a, -b);
    } else {
      NatTextInjective(a, b);
    }
  }

  lemma Pad2Injective(a: int, b: int)
    requires 0 <= a < 100 && 0 <= b < 100 && Pad2(a) == Pad2(b)
    ensures a == b
  {
    assert Pad2(a)[0] == Pad2(b)[0] && Pad2(a)[1] == Pad2(b)[1];
    assert a >= 10 ==> NatText(a) == [Digit(a / 10), Digit(a % 10)];
    assert b >= 10 ==> NatText(b) == [Digit(b / 10), Digit(b % 10)];
  }

  lemma {:induction false} NoLeadingZero(n: nat)
    ensures n >= 1 ==> NatText(n)[0] != '0'
  {
    if n >= 10 {
      NoLeadingZero(n / 10);
      assert NatText(n)[0] == NatText(n / 10)[0];
    }
  }

  lemma Pad2Cases(n: int)
    ensures 0 <= n < 10 ==> Pad2(n) == ['0', Digit(n)]
    ensures n >= 10 ==> Pad2(n) == IntText(n) && Pad2(n)[0] != '0'
    ensures n < 0 ==> Pad2(n) == IntText(n)
  {
    if n >= 0 {
      NoLeadingZero(n);
    }
  }

  /** The padding loses nothing, for integers of any size and sign. */
  lemma Pad2InjectiveAll(a: int, b: int)
    requires Pad2(a) == Pad2(b)
    ensures a == b
  {
    Pad2Cases(a);
    Pad2Cases(b);
    if 0 <= a < 10 && 0 <= b < 10 {
      assert Pad2(a)[1] == Pad2(b)[1];
    } else if !(0 <= a < 10) && !(0 <= b < 10) {
      IntTextInjective(a, b);
    }
  }

  /** Two texts split at the first occurrence of the same separator have equal parts. */
  lemma SplitAtSeparator(a: string, b: string, x: string, y: string, sep: char)
    requires sep !in a && sep !in b
    requires a + [sep] + x == b + [sep] + y
    ensures a == b && x == y
  {
    var s, t := a + [sep] + x, b + [sep] + y;
    assert s[|a|] == sep && t[|b|] == sep;
    assert forall i | 0 <= i < |a| :: s[i] == a[i] && a[i] in a;
    assert forall i | 0 <= i < |b| :: t[i] == b[i] && b[i] in b;
    assert |a| == |b|;
    assert s[..|a|] == a && t[..|b|] == b;
    assert s[|a| + 1..] == x && t[|b| + 1..] == y;
  }
}
