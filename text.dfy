/** Text helpers with the behaviour of the Python built-ins the bot relies on:
    `str(int)`, `' '.join(...)`, slicing and the substring test `a in b`. */
module Text {

  /** Decimal digit of 0 <= d < 10. */
  function Digit(d: nat): (c: char)
    requires d < 10
    ensures '0' <= c <= '9'
    ensures c as int - '0' as int == d
  {
    ('0' as int + d) as char
  }

  /** Decimal text of a natural number, without leading zeros. */
  function DigitsText(n: nat): (s: string)
    ensures |s| >= 1
    ensures forall k :: 0 <= k < |s| ==> '0' <= s[k] <= '9'
    ensures n >= 10 ==> |s| >= 2
    decreases n
  {
    if n < 10 then [Digit(n)] else DigitsText(n / 10) + [Digit(n % 10)]
  }

  /** `str(i)` for a Python int. */
  function IntText(i: int): string
  {
    if i < 0 then "-" + DigitsText(-i) else DigitsText(i)
  }

  lemma {:induction false} DigitsTextInjective(a: nat, b: nat)
    requires DigitsText(a) == DigitsText(b)
    ensures a == b
    decreases a
  {
    var sa, sb := DigitsText(a), DigitsText(b);
    if a < 10 && b < 10 {
      assert sa[0] == Digit(a) && sb[0] == Digit(b);
    } else if a >= 10 && b >= 10 {
      assert sa[|sa| - 1] == Digit(a % 10) && sb[|sb| - 1] == Digit(b % 10);
      assert sa[..|sa| - 1] == DigitsText(a / 10);
      assert sb[..|sb| - 1] == DigitsText(b / 10);
      DigitsTextInjective(a / 10, b / 10);
      assert a == 10 * (a / 10) + a % 10 && b == 10 * (b / 10) + b % 10;
    }
  }

  /** Distinct ints have distinct texts. */
  lemma {:induction false} IntTextInjective(a: int, b: int)
    requires IntText(a) == IntText(b)
    ensures a == b
  {
    IntTextSign(a);
    IntTextSign(b);
    if a < 0 && b < 0 {
      assert IntText(a)[1..] == DigitsText(-a);
      assert IntText(b)[1..] == DigitsText(-b);
      DigitsTextInjective(-a, -b);
    } else if a >= 0 && b >= 0 {
      DigitsTextInjective(a, b);
    }
  }

  /** The text of an int starts with a minus sign exactly when the int is negative. */
  lemma IntTextSign(i: int)
    ensures |IntText(i)| > 0
    ensures IntText(i)[0] == '-' <==> i < 0
  {
    if i >= 0 {
      assert '0' <= DigitsText(i)[0] <= '9';
    }
  }

  /** No text of an int contains a space. */
  lemma IntTextHasNoSpace(i: int)
    ensures NoSpace(IntText(i))
  {
  }

  predicate NoSpace(s: string)
  {
    forall k :: 0 <= k < |s| ==> s[k] != ' '
  }

  /** `sep.join(parts)`. */
  function Join(sep: string, parts: seq<string>): string
    decreases |parts|
  {
    if |parts| == 0 then ""
    else if |parts| == 1 then parts[0]
    else parts[0] + sep + Join(sep, parts[1..])
  }

  /** `needle in haystack` for two Python strings. */
  predicate IsSubstring(needle: string, haystack: string)
    decreases |haystack|
  {
    needle <= haystack || (|haystack| > 0 && IsSubstring(needle, haystack[1..]))
  }

  /** If `x + " " + a == y + " " + b` and neither `a` nor `b` holds a space,
      the split happens at the same place: the text after the last space is unique. */
  lemma SplitAtLastSpace(x: string, a: string, y: string, b: string)
    requires NoSpace(a) && NoSpace(b)
    requires x + " " + a == y + " " + b
    ensures a == b && x == y
  {
    LastSpace(x, a);
    LastSpace(y, b);
    var s := x + " " + a;
    if |a| == |b| {
      assert a == s[|s| - |a|..];
      assert b == (y + " " + b)[|s| - |b|..];
      assert x == s[..|x|];
      assert y == (y + " " + b)[..|y|];
    }
  }

  /** In `x + " " + a` with a space-free `a`, the last space sits just before `a`. */
  lemma LastSpace(x: string, a: string)
    requires NoSpace(a)
    ensures var s := x + " " + a; s[|x|] == ' ' && forall k :: |x| < k < |s| ==> s[k] != ' '
  {
    var s := x + " " + a;
    forall k | |x| < k < |s| ensures s[k] != ' ' {
      assert s[k] == a[k - |x| - 1];
    }
  }

  /** Equal texts with an equal head have equal tails. */
  lemma CancelPrefix(p: string, a: string, b: string)
    requires p + a == p + b
    ensures a == b
  {
    assert a == (p + a)[|p|..];
    assert b == (p + b)[|p|..];
  }

  /** Equal texts with an equal end have equal fronts. */
  lemma CancelSuffix(a: string, b: string, p: string)
    requires a + p == b + p
    ensures a == b
  {
    assert a == (a + p)[..|a|];
    assert b == (b + p)[..|b|];
  }
}
