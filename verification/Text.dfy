/** C strings, bounded printing and decimal numbers, as far as the logger uses them. */
module Text {

  /** Index of the first `c` in `s`, or |s|. */
  function IndexOf(s: string, c: char): (i: nat)
    ensures i <= |s|
    ensures c !in s[..i]
    ensures i < |s| ==> s[i] == c
  {
    if s == "" || s[0] == c then 0 else 1 + IndexOf(s[1..], c)
  }

  /** Index of the last `c` in `s`, or -1: what strrchr finds. */
  function LastIndexOf(s: string, c: char): (i: int)
    ensures -1 <= i < |s|
    ensures i >= 0 ==> s[i] == c
    ensures forall m | i < m < |s| :: s[m] != c
  {
    if s == "" then -1
    else if s[|s| - 1] == c then |s| - 1
    else LastIndexOf(s[..|s| - 1], c)
  }

  /** The C string that starts at the front of `s`: everything before the first NUL. */
  function CString(s: string): string {
    s[..IndexOf(s, '\0')]
  }

  /** What snprintf leaves in a buffer of `size` characters: the text, cut so that a NUL still fits. */
  function Clip(text: string, size: nat): (r: string)
    requires size > 0
    ensures |r| < size && r <= text
    ensures |text| < size ==> r == text
  {
    if |text| < size then text else text[..size - 1]
  }

  /** The text a format string prints: its pieces and its arguments one after another. */
  function Print(parts: seq<string>): string {
    if parts == [] then "" else parts[0] + Print(parts[1..])
  }

  lemma {:induction false} PrintAppend(parts: seq<string>, last: string)
    ensures Print(parts + [last]) == Print(parts) + last
  {
    if parts == [] {
      assert Print([last][1..]) == "";
    } else {
      assert (parts + [last])[1..] == parts[1..] + [last];
      PrintAppend(parts[1..], last);
    }
  }

  lemma {:induction false} IndexOfConcat(a: string, c: char, b: string)
    requires c !in a
    ensures IndexOf(a + [c] + b, c) == |a|
  {
    if a != "" {
      assert (a + [c] + b)[1..] == a[1..] + [c] + b;
      IndexOfConcat(a[1..], c, b);
    }
  }

  lemma {:induction false} IndexOfAbsent(a: string, c: char)
    requires c !in a
    ensures IndexOf(a, c) == |a|
  {
    if a != "" {
      IndexOfAbsent(a[1..], c);
    }
  }

  lemma CStringWithoutNul(s: string)
    requires '\0' !in s
    ensures CString(s) == s
  {
    IndexOfAbsent(s, '\0');
  }

  lemma {:induction false} LastIndexOfConcat(a: string, c: char, b: string)
    requires c !in b
    ensures LastIndexOf(a + [c] + b, c) == |a|
  {
    var s := a + [c] + b;
    if b != "" {
      assert s[..|s| - 1] == a + [c] + b[..|b| - 1];
      assert s[|s| - 1] == b[|b| - 1];
      LastIndexOfConcat(a, c, b[..|b| - 1]);
    }
  }

  lemma LastIndexOfAbsent(s: string, c: char)
    requires c !in s
    ensures LastIndexOf(s, c) == -1
  {
    assert forall m | 0 <= m < |s| :: s[m] in s;
  }

  // ----- decimal numbers -----

  predicate IsDigit(c: char) {
    '0' <= c <= '9'
  }

  predicate AllDigits(s: string) {
    forall c | c in s :: IsDigit(c)
  }

  function Digit(d: nat): char
    requires d < 10
  {
    (48 + d) as char
  }

  /** `%d` of a non-negative number. */
  function Digits(n: nat): string {
    if n < 10 then [Digit(n)] else Digits(n / 10) + [Digit(n % 10)]
  }

  /** Zeros before a text that is shorter than `width`. */
  function PadLeft(s: string, width: nat): (r: string)
    ensures |r| == if |s| < width then width else |s|
    decreases width - |s|
  {
    if |s| < width then PadLeft("0" + s, width) else s
  }

  /** `%0<width>d` of a non-negative number. */
  function Padded(n: nat, width: nat): string {
    PadLeft(Digits(n), width)
  }

  /** The number a digit string denotes. */
  function Value(s: string): nat
    requires AllDigits(s)
  {
    if s == "" then 0
    else
      assert s[|s| - 1] in s;
      10 * Value(s[..|s| - 1]) + (s[|s| - 1] as int - 48)
  }

  function Pow10(k: nat): nat {
    if k == 0 then 1 else 10 * Pow10(k - 1)
  }

  lemma {:induction false} ValueDigits(n: nat)
    ensures AllDigits(Digits(n)) && Value(Digits(n)) == n
  {
    if n >= 10 {
      ValueDigits(n / 10);
      assert Digits(n)[..|Digits(n)| - 1] == Digits(n / 10);
    } else {
      assert Digits(n)[..0] == "";
    }
  }

  lemma {:induction false} ValueLeadingZero(s: string)
    requires AllDigits(s)
    ensures AllDigits("0" + s) && Value("0" + s) == Value(s)
  {
    var z := "0" + s;
    if s != "" {
      assert z[..|z| - 1] == "0" + s[..|s| - 1];
      ValueLeadingZero(s[..|s| - 1]);
    }
  }

  lemma {:induction false} ValuePadLeft(s: string, width: nat)
    requires AllDigits(s)
    ensures AllDigits(PadLeft(s, width)) && Value(PadLeft(s, width)) == Value(s)
    decreases width - |s|
  {
    if |s| < width {
      ValueLeadingZero(s);
      ValuePadLeft("0" + s, width);
    }
  }

  lemma ValuePadded(n: nat, width: nat)
    ensures AllDigits(Padded(n, width)) && Value(Padded(n, width)) == n
  {
    ValueDigits(n);
    ValuePadLeft(Digits(n), width);
  }

  lemma {:induction false} Pow10Grows(k: nat)
    requires k > 0
    ensures Pow10(k) >= 10
  {
    if k > 1 {
      Pow10Grows(k - 1);
    }
  }

  /** A number prints in at most k digits exactly when it is below 10^k. */
  lemma {:induction false} DigitsLength(n: nat, k: nat)
    requires k > 0
    ensures |Digits(n)| <= k <==> n < Pow10(k)
  {
    if k == 1 {
      assert Pow10(1) == 10;
    } else if n >= 10 {
      DigitsLength(n / 10, k - 1);
    } else {
      Pow10Grows(k);
    }
  }

  lemma PaddedLength(n: nat, width: nat)
    requires width > 0
    ensures |Padded(n, width)| >= width
    ensures n < Pow10(width) ==> |Padded(n, width)| == width
    ensures n < Pow10(width + 1) ==> |Padded(n, width)| <= width + 1
  {
    DigitsLength(n, width);
    DigitsLength(n, width + 1);
  }

  // ----- lexicographic order -----

  predicate LexLess(a: string, b: string) {
    b != "" && (a == "" || a[0] < b[0] || (a[0] == b[0] && LexLess(a[1..], b[1..])))
  }

  lemma {:induction false} LexLessConcat(a: string, a': string, b: string, b': string)
    requires |a| == |b|
    ensures LexLess(a + a', b + b') <==> LexLess(a, b) || (a == b && LexLess(a', b'))
  {
    if a == "" {
      assert a + a' == a' && b + b' == b';
    } else {
      assert (a + a')[1..] == a[1..] + a' && (b + b')[1..] == b[1..] + b';
      LexLessConcat(a[1..], a', b[1..], b');
      assert a == b <==> a[0] == b[0] && a[1..] == b[1..] by {
        assert a == [a[0]] + a[1..] && b == [b[0]] + b[1..];
      }
    }
  }

  /** One more digit. */
  lemma LexLessDigit(a: string, b: string, x: char, y: char)
    requires |a| == |b|
    ensures LexLess(a + [x], b + [y]) <==> LexLess(a, b) || (a == b && x < y)
    ensures a + [x] == b + [y] <==> a == b && x == y
  {
    LexLessConcat(a, [x], b, [y]);
    assert LexLess([x], [y]) <==> x < y;
    assert (a + [x])[..|a|] == a && (b + [y])[..|b|] == b;
    assert (a + [x])[|a|] == x && (b + [y])[|b|] == y;
  }

  lemma TenfoldOrder(v: nat, x: int, w: nat, y: int)
    requires 0 <= x < 10 && 0 <= y < 10
    ensures 10 * v + x < 10 * w + y <==> v < w || (v == w && x < y)
    ensures 10 * v + x == 10 * w + y <==> v == w && x == y
  {
  }

  /** On digit strings of one length, lexicographic order is numeric order. */
  lemma {:induction false} LexLessDigits(a: string, b: string)
    requires |a| == |b| && AllDigits(a) && AllDigits(b)
    ensures LexLess(a, b) <==> Value(a) < Value(b)
    ensures a == b <==> Value(a) == Value(b)
  {
    if a != "" {
      var n := |a| - 1;
      var x, y := a[n], b[n];
      assert IsDigit(x) && IsDigit(y) by {
        assert x in a && y in b;
      }
      assert a == a[..n] + [x] && b == b[..n] + [y];
      LexLessDigits(a[..n], b[..n]);
      LexLessDigit(a[..n], b[..n], x, y);
      TenfoldOrder(Value(a[..n]), x as int - 48, Value(b[..n]), y as int - 48);
    }
  }
}
