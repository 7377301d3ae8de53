/** The small part of JavaScript's runtime behaviour that the storefront's
    handlers rely on: optional values, the outcome of an awaited request,
    Array.prototype.map and Array.prototype.filter, parseInt with radix 10,
    and the truncating remainder operator. */
module JsSemantics {

  /** A value that may be `undefined`. */
  datatype Option<+T> = None | Some(value: T)

  /** The outcome of an awaited HTTP request: it resolves with a value or
      rejects with an error whose `message` is given. */
  datatype ApiCall<+T> = Succeeded(value: T) | Rejected(message: string)

  // ---------------------------------------------------------------------------
  // Array.prototype.map and Array.prototype.filter

  /** `s.map(f)` */
  function Map<A, B>(s: seq<A>, f: A -> B): (r: seq<B>)
    ensures |r| == |s|
  {
    if |s| == 0 then [] else [f(s[0])] + Map(s[1..], f)
  }

  /** Element i of `s.map(f)` is `f(s[i])`. */
  lemma {:induction false} MapAt<A, B>(s: seq<A>, f: A -> B, i: int)
    requires 0 <= i < |s|
    ensures Map(s, f)[i] == f(s[i])
  {
    if i > 0 {
      MapAt(s[1..], f, i - 1);
    }
  }

  /** `s.filter(keep)` */
  function Filter<T>(s: seq<T>, keep: T -> bool): (r: seq<T>)
    ensures |r| <= |s|
    ensures forall x :: x in r ==> x in s && keep(x)
  {
    if |s| == 0 then []
    else if keep(s[0]) then [s[0]] + Filter(s[1..], keep)
    else Filter(s[1..], keep)
  }

  /** An element survives the filter exactly when it was there and passes it. */
  lemma {:induction false} FilterMembership<T>(s: seq<T>, keep: T -> bool, x: T)
    ensures x in Filter(s, keep) <==> x in s && keep(x)
  {
    if |s| > 0 {
      FilterMembership(s[1..], keep, x);
      assert x in s <==> x == s[0] || x in s[1..];
    }
  }

  /** Filtering distributes over concatenation: together with the one-element
      cases this says the survivors keep their original relative order. */
  lemma {:induction false} FilterConcat<T>(a: seq<T>, b: seq<T>, keep: T -> bool)
    ensures Filter(a + b, keep) == Filter(a, keep) + Filter(b, keep)
  {
    if |a| == 0 {
      assert a + b == b;
    } else {
      assert (a + b)[0] == a[0];
      assert (a + b)[1..] == a[1..] + b;
      FilterConcat(a[1..], b, keep);
    }
  }

  /** When every element passes, the filter is the identity. */
  lemma {:induction false} FilterAll<T>(s: seq<T>, keep: T -> bool)
    requires forall i :: 0 <= i < |s| ==> keep(s[i])
    ensures Filter(s, keep) == s
  {
    if |s| > 0 {
      assert keep(s[0]);
      FilterAll(s[1..], keep);
    }
  }

  // ---------------------------------------------------------------------------
  // Positional removal: `s.filter((_, i) => i !== index)`

  /** The elements of `s` whose position differs from `index`. */
  function WithoutIndex<T>(s: seq<T>, index: int): (r: seq<T>)
  {
    if |s| == 0 then []
    else (if index == 0 then [] else [s[0]]) + WithoutIndex(s[1..], index - 1)
  }

  /** Removing an in-range position cuts out exactly that element; any other
      index leaves the sequence as it was. */
  lemma {:induction false} WithoutIndexSpec<T>(s: seq<T>, index: int)
    ensures WithoutIndex(s, index) == if 0 <= index < |s| then s[..index] + s[index + 1..] else s
  {
    if |s| > 0 {
      WithoutIndexSpec(s[1..], index - 1);
      if index == 0 {
        assert s[index + 1..] == s[1..];
      } else if 0 < index < |s| {
        assert s[..index] == [s[0]] + s[1..][..index - 1];
        assert s[index + 1..] == s[1..][index..];
      } else {
        assert s == [s[0]] + s[1..];
      }
    }
  }

  // ---------------------------------------------------------------------------
  // parseInt(s) with the default radix, for decimal text

  predicate IsDigit(c: char) { '0' <= c <= '9' }

  predicate AllDigits(s: string) { forall i :: 0 <= i < |s| ==> IsDigit(s[i]) }

  function DigitValue(c: char): (d: nat)
    requires IsDigit(c)
    ensures d < 10
  {
    (c as int) - ('0' as int)
  }

  function DigitChar(d: nat): (c: char)
    requires d < 10
    ensures IsDigit(c) && DigitValue(c) == d
  {
    (('0' as int) + d) as char
  }

  /** The white space parseInt skips before the number (the ASCII part of
      JavaScript's StrWhiteSpaceChar). */
  predicate IsSpace(c: char) { c == ' ' || c == '\t' || c == '\n' || c == '\r' || c == '\U{B}' || c == '\U{C}' }

  /** `s` without its leading white space. */
  function TrimStart(s: string): (r: string)
    ensures r == [] || !IsSpace(r[0])
  {
    if |s| > 0 && IsSpace(s[0]) then TrimStart(s[1..]) else s
  }

  /** The longest prefix of `s` made of decimal digits. */
  function LeadingDigits(s: string): (r: string)
    ensures AllDigits(r)
  {
    if |s| == 0 || !IsDigit(s[0]) then [] else [s[0]] + LeadingDigits(s[1..])
  }

  /** The value of a string of decimal digits, most significant digit first. */
  function DigitsValue(s: string): nat
    requires AllDigits(s)
  {
    if |s| == 0 then 0 else DigitsValue(s[..|s| - 1]) * 10 + DigitValue(s[|s| - 1])
  }

  /** `parseInt(s)`: optional white space, an optional sign, then as many
      decimal digits as there are; `None` stands for NaN, the result when
      no digit follows the sign. */
  function ParseInt(s: string): Option<int>
  {
    var t := TrimStart(s);
    var digits := LeadingDigits(Unsigned(t));
    var magnitude: int := if digits == [] then 0 else DigitsValue(digits);
    if digits == [] then None
    else if |t| > 0 && t[0] == '-' then Some(-magnitude)
    else Some(magnitude)
  }

  /** The text after an optional leading sign. */
  function Unsigned(t: string): string
  {
    if |t| > 0 && (t[0] == '-' || t[0] == '+') then t[1..] else t
  }

  /** The decimal text of a natural number, as `String(n)` writes it for
      n below 10^21 (from there on `String` switches to exponent form). */
  function NatString(n: nat): (s: string)
    ensures |s| > 0 && AllDigits(s)
  {
    if n < 10 then [DigitChar(n)] else NatString(n / 10) + [DigitChar(n % 10)]
  }

  /** The decimal text of an integer, as `String(n)` writes it for |n|
      below 10^21. */
  function IntString(n: int): (s: string)
  {
    if n < 0 then "-" + NatString(-n) else NatString(n)
  }

  lemma {:induction false} NatStringValue(n: nat)
    ensures DigitsValue(NatString(n)) == n
  {
    if n >= 10 {
      var s := NatString(n);
      assert s[..|s| - 1] == NatString(n / 10);
      NatStringValue(n / 10);
    }
  }

  lemma {:induction false} LeadingDigitsOf(s: string, rest: string)
    requires AllDigits(s)
    requires rest == [] || !IsDigit(rest[0])
    ensures LeadingDigits(s + rest) == s
  {
    if |s| == 0 {
      assert s + rest == rest;
    } else {
      assert (s + rest)[1..] == s[1..] + rest;
      LeadingDigitsOf(s[1..], rest);
    }
  }

  /** What parseInt makes of text that starts with a digit, with or
      without a minus sign in front. */
  lemma {:induction false} ParseIntFromDigit(u: string)
    requires |u| > 0 && IsDigit(u[0])
    ensures LeadingDigits(u) != []
    ensures ParseInt(u) == Some(DigitsValue(LeadingDigits(u)) as int)
    ensures ParseInt("-" + u) == Some(-(DigitsValue(LeadingDigits(u)) as int))
  {
    assert TrimStart(u) == u;
    assert Unsigned(u) == u;
    var t := "-" + u;
    assert t[0] == '-';
    assert TrimStart(t) == t;
    assert Unsigned(t) == u;
  }

  /** parseInt reads a run of digits and stops where the digits end. */
  lemma {:induction false} ParseIntDigits(d: string, rest: string)
    requires |d| > 0 && AllDigits(d)
    requires rest == [] || !IsDigit(rest[0])
    ensures LeadingDigits(d + rest) == d
    ensures ParseInt(d + rest) == Some(DigitsValue(d) as int)
  {
    var u := d + rest;
    assert IsDigit(d[0]) && u[0] == d[0];
    LeadingDigitsOf(d, rest);
    ParseIntFromDigit(u);
  }

  /** The same with a minus sign in front. */
  lemma {:induction false} ParseIntNegatedDigits(d: string, rest: string)
    requires |d| > 0 && AllDigits(d)
    requires rest == [] || !IsDigit(rest[0])
    ensures ParseInt("-" + (d + rest)) == Some(-(DigitsValue(d) as int))
  {
    var u := d + rest;
    ParseIntDigits(d, rest);
    ParseIntFromDigit(u);
  }

  lemma {:induction false} ParseIntNatString(n: nat, rest: string)
    requires rest == [] || !IsDigit(rest[0])
    ensures ParseInt(NatString(n) + rest) == Some(n)
    ensures ParseInt("-" + (NatString(n) + rest)) == Some(-(n as int))
  {
    NatStringValue(n);
    ParseIntDigits(NatString(n), rest);
    ParseIntNegatedDigits(NatString(n), rest);
  }

  lemma {:induction false} ParseIntNegativeString(n: int, rest: string)
    requires n < 0
    requires rest == [] || !IsDigit(rest[0])
    ensures ParseInt(IntString(n) + rest) == Some(n)
  {
    var k: nat := -n;
    var d := NatString(k);
    assert IntString(n) == "-" + d;
    SignThenText(d, rest);
    ParseIntNatString(k, rest);
  }

  lemma SignThenText(d: string, rest: string)
    ensures "-" + d + rest == "-" + (d + rest)
  {
  }

  /** parseInt reads back what String wrote, and stops at the first
      character that is not a digit: `parseInt("3.5")` is 3. */
  lemma {:induction false} ParseIntString(n: int, rest: string)
    requires rest == [] || !IsDigit(rest[0])
    ensures ParseInt(IntString(n) + rest) == Some(n)
  {
    if n < 0 {
      ParseIntNegativeString(n, rest);
    } else {
      ParseIntNatString(n, rest);
      assert IntString(n) == NatString(n);
    }
  }

  // ---------------------------------------------------------------------------
  // The `%` operator

  /** JavaScript's `a % b`: the remainder of the quotient truncated toward
      zero, so it takes the sign of `a`. */
  function Rem(a: int, b: int): (r: int)
    requires b != 0
    ensures 0 <= a ==> 0 <= r < (if b < 0 then -b else b)
    ensures a < 0 ==> -(if b < 0 then -b else b) < r <= 0
    ensures 0 <= a && 0 < b ==> r == a % b
    ensures a < 0 && 0 < b ==> r == -((-a) % b)
  {
    var m := (if a < 0 then -a else a) % (if b < 0 then -b else b);
    if a < 0 then -m else m
  }
}
