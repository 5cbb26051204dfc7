/**
 * Character classes, counting and the bits of Python string behaviour the
 * validators lean on: `str.isdigit`/`isupper`/`islower` on ASCII input,
 * `sum(pred(c) for c in s)`, `str.count`, `str.index`, `c * n`, `t in s`,
 * `str(n)`, `ngettext` and `%`-interpolation of a `%(name)d` placeholder.
 */
module Text {

  /** `str.isdigit()` on an ASCII character. */
  predicate IsDigit(c: char) { '0' <= c <= '9' }

  /** `int(c)` on a digit character. */
  function DigitValue(c: char): (v: nat)
    requires IsDigit(c)
    ensures v <= 9
  {
    c as int - '0' as int
  }

  /** `str.isupper()` on an ASCII character. */
  predicate IsUpper(c: char) { 'A' <= c <= 'Z' }

  /** `str.islower()` on an ASCII character. */
  predicate IsLower(c: char) { 'a' <= c <= 'z' }

  /** The per-character tests the validators count with. */
  datatype CharClass = Digit | Upper | Lower | OneOf(members: string) | Exactly(ch: char)
  {
    predicate Has(c: char) {
      match this
      case Digit => IsDigit(c)
      case Upper => IsUpper(c)
      case Lower => IsLower(c)
      case OneOf(m) => c in m
      case Exactly(x) => c == x
    }
  }

  /** `sum(cls(c) for c in s)`: the number of characters of `s` in `cls`. */
  function Count(s: string, cls: CharClass): (n: nat)
    ensures n <= |s|
    ensures n == 0 <==> forall i :: 0 <= i < |s| ==> !cls.Has(s[i])
    ensures n == |s| <==> forall i :: 0 <= i < |s| ==> cls.Has(s[i])
  {
    if s == [] then 0
    else
      assert forall i :: 1 <= i < |s| ==> s[1..][i - 1] == s[i];
      (if cls.Has(s[0]) then 1 else 0) + Count(s[1..], cls)
  }

  /** Counting distributes over concatenation. */
  lemma {:induction false} CountAppend(a: string, b: string, cls: CharClass)
    ensures Count(a + b, cls) == Count(a, cls) + Count(b, cls)
  {
    if a != [] {
      assert (a + b)[1..] == a[1..] + b;
      CountAppend(a[1..], b, cls);
    } else {
      assert a + b == b;
    }
  }

  /** A slice of `s` holds no more characters of a class than `s` does. */
  lemma CountSlice(s: string, lo: nat, hi: nat, cls: CharClass)
    requires lo <= hi <= |s|
    ensures Count(s[lo..hi], cls) <= Count(s, cls)
  {
    assert s == s[..lo] + s[lo..hi] + s[hi..];
    CountAppend(s[..lo] + s[lo..hi], s[hi..], cls);
    CountAppend(s[..lo], s[lo..hi], cls);
  }

  /** `str.index(c)`: the position of the first occurrence of `c` in `s`. */
  function FirstIndex(s: string, c: char): (r: nat)
    requires c in s
    ensures r < |s| && s[r] == c
    ensures forall j :: 0 <= j < r ==> s[j] != c
  {
    if s[0] == c then 0
    else
      assert c in s[1..] by {
        var k :| 0 <= k < |s| && s[k] == c;
        assert s[1..][k - 1] == c;
      }
      1 + FirstIndex(s[1..], c)
  }

  /** `c * n`: `n` copies of `c`, and the empty string when `n <= 0`. */
  function Repeat(c: char, n: int): (r: string)
    ensures |r| == if n <= 0 then 0 else n
    ensures forall j :: 0 <= j < |r| ==> r[j] == c
    decreases n
  {
    if n <= 0 then [] else [c] + Repeat(c, n - 1)
  }

  /** `t in s` for strings: `t` occurs in `s` at some position. */
  predicate IsSubstring(t: string, s: string)
    ensures IsSubstring(t, s) ==> |t| <= |s|
    ensures t <= s ==> IsSubstring(t, s)
  {
    assert t <= s ==> t <= s[0..];
    exists i :: 0 <= i <= |s| - |t| && t <= s[i..]
  }

  /** The character for a digit value. */
  function DigitChar(d: nat): (c: char)
    requires d <= 9
    ensures IsDigit(c) && DigitValue(c) == d
  {
    ('0' as int + d) as char
  }

  /** `str(n)` for a non-negative integer: its decimal digits, most significant first. */
  function NatDecimal(n: nat): (r: string)
    ensures |r| >= 1
    ensures forall i :: 0 <= i < |r| ==> IsDigit(r[i])
    ensures n >= 10 ==> r[0] != '0'
  {
    if n < 10 then [DigitChar(n)] else NatDecimal(n / 10) + [DigitChar(n % 10)]
  }

  /** The number a string of decimal digits denotes. */
  function DecimalValue(s: string): nat
    requires forall i :: 0 <= i < |s| ==> IsDigit(s[i])
  {
    if s == [] then 0 else DecimalValue(s[..|s| - 1]) * 10 + DigitValue(s[|s| - 1])
  }

  /** Reading back the digits `str(n)` writes gives `n`. */
  lemma {:induction false} NatDecimalRoundTrip(n: nat)
    ensures DecimalValue(NatDecimal(n)) == n
  {
    if n >= 10 {
      var r := NatDecimal(n);
      assert r[..|r| - 1] == NatDecimal(n / 10);
      NatDecimalRoundTrip(n / 10);
    }
  }

  /** `str(n)`, with a leading '-' for a negative `n`. */
  function Decimal(n: int): (r: string)
    ensures r != [] && '%' !in r
    ensures (r[0] == '-') <==> n < 0
  {
    if n < 0 then "-" + NatDecimal(-n) else NatDecimal(n)
  }

  /** `str(n)` reads back as `n`: a '-' exactly when `n < 0`, then the digits of `|n|`. */
  lemma DecimalRoundTrip(n: int)
    ensures var r := Decimal(n);
      if n < 0 then
        r[0] == '-' && (forall i :: 1 <= i < |r| ==> IsDigit(r[i])) && DecimalValue(r[1..]) == -n
      else
        (forall i :: 0 <= i < |r| ==> IsDigit(r[i])) && DecimalValue(r) == n
  {
    if n < 0 {
      var d := NatDecimal(-n);
      assert Decimal(n) == "-" + d;
      assert ("-" + d)[1..] == d;
      NatDecimalRoundTrip(-n);
    } else {
      NatDecimalRoundTrip(n);
    }
  }

  /**
   * `ngettext(singular, plural, n)` with no translation catalog installed:
   * English has one singular form, chosen exactly when n == 1.
   */
  function Plural(n: int, singular: string, plural: string): (r: string)
    ensures n == 1 ==> r == singular
    ensures n != 1 ==> r == plural
  {
    if n == 1 then singular else plural
  }

  /** The `%(key)d` conversion specification Python's `%` operator fills from a dict. */
  function Placeholder(key: string): string {
    "%(" + key + ")d"
  }

  /**
   * `t % {key: value}`: each `%(key)d` in `t` becomes `str(value)`; the rest of
   * `t` is copied.
   */
  function Interpolate(t: string, key: string, value: int): (r: string)
    ensures r == [] <==> t == []
    ensures t != [] && t[0] != '%' ==> r[0] == t[0]
    decreases |t|
  {
    if t == [] then []
    else if Placeholder(key) <= t then
      assert t[0] == Placeholder(key)[0] == '%';
      Decimal(value) + Interpolate(t[|Placeholder(key)|..], key, value)
    else
      assert Placeholder(key)[0] == '%';
      [t[0]] + Interpolate(t[1..], key, value)
  }

  /** A string with no '%' comes back unchanged. */
  lemma {:induction false} InterpolateVerbatim(t: string, key: string, value: int)
    requires '%' !in t
    ensures Interpolate(t, key, value) == t
  {
    if t != [] {
      assert '%' !in t[1..];
      InterpolateCopies(t, key, value);
      InterpolateVerbatim(t[1..], key, value);
    }
  }

  /** A character other than '%' is copied as it stands. */
  lemma InterpolateCopies(t: string, key: string, value: int)
    requires t != [] && t[0] != '%'
    ensures Interpolate(t, key, value) == [t[0]] + Interpolate(t[1..], key, value)
  {
    assert Placeholder(key)[0] == '%';
  }

  /** A placeholder at the front is replaced by the decimal value, and interpolation carries on after it. */
  lemma InterpolateAtPlaceholder(key: string, value: int, post: string)
    ensures Interpolate(Placeholder(key) + post, key, value)
         == Decimal(value) + Interpolate(post, key, value)
  {
    var ph := Placeholder(key);
    assert ph <= ph + post && (ph + post)[|ph|..] == post;
  }

  /** Interpolation fills a placeholder that follows '%'-free text and carries on after it. */
  lemma {:induction false} InterpolateAfter(pre: string, key: string, value: int, post: string)
    requires '%' !in pre
    ensures Interpolate(pre + Placeholder(key) + post, key, value)
         == pre + Decimal(value) + Interpolate(post, key, value)
  {
    if pre == [] {
      calc {
        Interpolate(pre + Placeholder(key) + post, key, value);
        { assert pre + Placeholder(key) + post == Placeholder(key) + post; }
        Interpolate(Placeholder(key) + post, key, value);
        { InterpolateAtPlaceholder(key, value, post); }
        Decimal(value) + Interpolate(post, key, value);
        pre + Decimal(value) + Interpolate(post, key, value);
      }
    } else {
      assert Interpolate(pre + Placeholder(key) + post, key, value)
          == pre + Decimal(value) + Interpolate(post, key, value) by {
        assert '%' !in pre[1..];
        InterpolateAfter(pre[1..], key, value, post);
        InterpolateAfterStep(pre, key, value, post);
      }
    }
  }

  /** One step of `InterpolateAfter`: a '%'-free first character is copied in front of the rest. */
  lemma InterpolateAfterStep(pre: string, key: string, value: int, post: string)
    requires pre != [] && pre[0] != '%'
    requires Interpolate(pre[1..] + Placeholder(key) + post, key, value)
          == pre[1..] + Decimal(value) + Interpolate(post, key, value)
    ensures Interpolate(pre + Placeholder(key) + post, key, value)
         == pre + Decimal(value) + Interpolate(post, key, value)
  {
    var t := pre + Placeholder(key) + post;
    assert t[0] == pre[0] && t[1..] == pre[1..] + Placeholder(key) + post;
    InterpolateCopies(t, key, value);
    ConsAppend(pre, Decimal(value), Interpolate(post, key, value));
  }

  /** Putting back the first character of `a` in front of `a[1..] + b + c` gives `a + b + c`. */
  lemma ConsAppend(a: string, b: string, c: string)
    requires a != []
    ensures [a[0]] + (a[1..] + b + c) == a + b + c
  {
    assert [a[0]] + a[1..] == a;
  }
}
