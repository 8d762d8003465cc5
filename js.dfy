/**
 * The slice of JavaScript value semantics the front end relies on: nullish
 * and truthy tests, optional property access `v?.key`, the `??` and `||`
 * operators, `String(v)`, `Number(v)` for the inputs that occur, ASCII
 * `toLowerCase`, `includes`, and the decimal rendering of integers used in
 * template literals. The rendering of non-integral numbers is an engine
 * algorithm and is passed in as `numText`.
 */
module Js {
  import opened Wrappers

  datatype JsValue =
    | Undefined
    | Null
    | Bool(b: bool)
    | Num(n: real)
    | Str(s: string)
    | Arr(items: seq<JsValue>)
    | Obj(fields: map<string, JsValue>)

  /** An HTTP response as `fetch` delivers it; `body` is None when it is not JSON. */
  datatype HttpResponse = HttpResponse(ok: bool, status: nat, statusText: string, body: Option<JsValue>)

  predicate IsNullish(v: JsValue)
  {
    v.Undefined? || v.Null?
  }

  /** JavaScript truthiness (NaN and -0 are not representable here). */
  predicate Truthy(v: JsValue)
  {
    match v
    case Undefined => false
    case Null => false
    case Bool(b) => b
    case Num(n) => n != 0.0
    case Str(s) => s != ""
    case Arr(_) => true
    case Obj(_) => true
  }

  /** `v?.key`: the property of an object, `undefined` for a missing key or a non-object. */
  function Get(v: JsValue, key: string): JsValue
  {
    if v.Obj? && key in v.fields then v.fields[key] else Undefined
  }

  /** `a ?? b` */
  function Coalesce(a: JsValue, b: JsValue): JsValue
  {
    if IsNullish(a) then b else a
  }

  /** `a || b` */
  function Or(a: JsValue, b: JsValue): JsValue
  {
    if Truthy(a) then a else b
  }

  // ---------------------------------------------------------------------
  // Decimal text of natural numbers

  predicate IsDigit(c: char)
  {
    '0' <= c <= '9'
  }

  predicate AllDigits(s: string)
  {
    forall i :: 0 <= i < |s| ==> IsDigit(s[i])
  }

  function DigitChar(d: nat): (c: char)
    requires d < 10
    ensures IsDigit(c)
  {
    ('0' as int + d) as char
  }

  function DigitValue(c: char): nat
    requires IsDigit(c)
  {
    c as int - '0' as int
  }

  /** The decimal digits of `n`, most significant first, without leading zeros. */
  function NatToString(n: nat): (s: string)
    ensures |s| >= 1 && AllDigits(s)
    ensures |s| > 1 ==> s[0] != '0'
  {
    if n < 10 then [DigitChar(n)] else NatToString(n / 10) + [DigitChar(n % 10)]
  }

  /** The number a string of decimal digits denotes. */
  function ParseDigits(s: string): nat
    requires AllDigits(s)
  {
    if s == [] then 0 else ParseDigits(s[..|s| - 1]) * 10 + DigitValue(s[|s| - 1])
  }

  /** Reading the decimal text of `n` gives `n` back. */
  lemma {:induction false} ParseNatToString(n: nat)
    ensures ParseDigits(NatToString(n)) == n
  {
    if n >= 10 {
      var s := NatToString(n);
      assert s[..|s| - 1] == NatToString(n / 10);
      ParseNatToString(n / 10);
    }
  }

  /** Distinct numbers have distinct decimal texts. */
  lemma NatToStringInjective(m: nat, n: nat)
    requires NatToString(m) == NatToString(n)
    ensures m == n
  {
    ParseNatToString(m);
    ParseNatToString(n);
  }

  /** The index of the first space in `m`, or its length when there is none. */
  function FirstSpace(m: string): (k: nat)
    ensures k <= |m|
    ensures forall i :: 0 <= i < k ==> m[i] != ' '
    ensures k < |m| ==> m[k] == ' '
  {
    if m == [] || m[0] == ' ' then 0 else 1 + FirstSpace(m[1..])
  }

  lemma FirstSpaceAfterDigits(d: string, t: string)
    requires AllDigits(d)
    ensures FirstSpace(d + " " + t) == |d|
  {
    var m := d + " " + t;
    assert m[|d|] == ' ';
    assert forall i :: 0 <= i < |d| ==> m[i] == d[i];
  }

  /** Digits followed by a space and more text split back into the digits and the rest. */
  lemma DigitsThenSpaceSplit(d1: string, t1: string, d2: string, t2: string)
    requires AllDigits(d1) && AllDigits(d2) && d1 + " " + t1 == d2 + " " + t2
    ensures d1 == d2 && t1 == t2
  {
    var s := d1 + " " + t1;
    FirstSpaceAfterDigits(d1, t1);
    FirstSpaceAfterDigits(d2, t2);
    assert d1 == s[..|d1|] && d2 == s[..|d2|];
    assert t1 == s[|d1| + 1..] && t2 == s[|d2| + 1..];
  }

  /** A number's text followed by a space and more text splits back into the number and the rest. */
  lemma NumberThenSpaceInjective(m: nat, t1: string, n: nat, t2: string)
    requires NatToString(m) + " " + t1 == NatToString(n) + " " + t2
    ensures m == n && t1 == t2
  {
    DigitsThenSpaceSplit(NatToString(m), t1, NatToString(n), t2);
    NatToStringInjective(m, n);
  }

  lemma Regroup(a: string, mid: string, b: string, post: string)
    requires |mid| > 0 && mid[0] == ' '
    ensures a + mid + b + post == a + " " + (mid[1..] + b + post)
  {
    assert mid == " " + mid[1..];
  }

  /** Digits, fixed text, digits and fixed text, each piece of text starting with a space, split back. */
  lemma TwoDigitRunsSplit(a1: string, mid: string, b1: string, post: string, a2: string, b2: string)
    requires AllDigits(a1) && AllDigits(b1) && AllDigits(a2) && AllDigits(b2)
    requires |mid| > 0 && mid[0] == ' ' && |post| > 0 && post[0] == ' '
    requires a1 + mid + b1 + post == a2 + mid + b2 + post
    ensures a1 == a2 && b1 == b2
  {
    Regroup(a1, mid, b1, post);
    Regroup(a2, mid, b2, post);
    DigitsThenSpaceSplit(a1, mid[1..] + b1 + post, a2, mid[1..] + b2 + post);
    var r1, r2 := mid[1..] + b1 + post, mid[1..] + b2 + post;
    assert b1 + post == r1[|mid| - 1..];
    assert b2 + post == r2[|mid| - 1..];
    Regroup(b1, post, [], []);
    Regroup(b2, post, [], []);
    assert b1 + post == b1 + " " + post[1..];
    assert b2 + post == b2 + " " + post[1..];
    DigitsThenSpaceSplit(b1, post[1..], b2, post[1..]);
  }

  /** Two numbers shown inside such text can be read back from it. */
  lemma TwoNumbersInTextInjective(m1: nat, mid: string, n1: nat, post: string, m2: nat, n2: nat)
    requires |mid| > 0 && mid[0] == ' ' && |post| > 0 && post[0] == ' '
    requires NatToString(m1) + mid + NatToString(n1) + post == NatToString(m2) + mid + NatToString(n2) + post
    ensures m1 == m2 && n1 == n2
  {
    TwoDigitRunsSplit(NatToString(m1), mid, NatToString(n1), post, NatToString(m2), NatToString(n2));
    NatToStringInjective(m1, m2);
    NatToStringInjective(n1, n2);
  }

  lemma DropPrefix(pre: string, a: string, mid: string, b: string, post: string,
                   a': string, b': string)
    requires pre + a + mid + b + post == pre + a' + mid + b' + post
    ensures a + mid + b + post == a' + mid + b' + post
  {
    var x, x' := a + mid + b + post, a' + mid + b' + post;
    assert pre + a + mid + b + post == pre + x;
    assert pre + a' + mid + b' + post == pre + x';
    assert x == (pre + x)[|pre|..] && x' == (pre + x')[|pre|..];
  }

  /** The same with fixed text in front. */
  lemma PrefixedNumbersInjective(pre: string, m1: nat, mid: string, n1: nat, post: string, m2: nat, n2: nat)
    requires |mid| > 0 && mid[0] == ' ' && |post| > 0 && post[0] == ' '
    requires pre + NatToString(m1) + mid + NatToString(n1) + post == pre + NatToString(m2) + mid + NatToString(n2) + post
    ensures m1 == m2 && n1 == n2
  {
    DropPrefix(pre, NatToString(m1), mid, NatToString(n1), post, NatToString(m2), NatToString(n2));
    TwoNumbersInTextInjective(m1, mid, n1, post, m2, n2);
  }

  // ---------------------------------------------------------------------
  // String(v) and Number(v)

  /** `String(v)`; numbers are rendered by `numText`. */
  function ToJsString(v: JsValue, numText: real -> string): string
    decreases v, 1
  {
    match v
    case Undefined => "undefined"
    case Null => "null"
    case Bool(b) => if b then "true" else "false"
    case Num(n) => numText(n)
    case Str(s) => s
    case Arr(_) => JoinFrom(v, 0, numText)
    case Obj(_) => "[object Object]"
  }

  /** `Array.prototype.join(",")` of the items of `v` from index `i` on. */
  function JoinFrom(v: JsValue, i: nat, numText: real -> string): string
    requires v.Arr? && i <= |v.items|
    decreases v, 0, |v.items| - i
  {
    if i == |v.items| then ""
    else
      var item := v.items[i];
      (if i == 0 then "" else ",")
      + (if IsNullish(item) then "" else ToJsString(item, numText))
      + JoinFrom(v, i + 1, numText)
  }

  /**
   * `Number(s)` when it is finite, for the empty string and optionally
   * negated decimal integers; every other string is treated as NaN.
   */
  function StringToNumber(s: string): Option<real>
  {
    if s == "" then Some(0.0)
    else if AllDigits(s) then Some(ParseDigits(s) as real)
    else if |s| > 1 && s[0] == '-' && AllDigits(s[1..]) then Some(-(ParseDigits(s[1..]) as real))
    else None
  }

  /** `Number(v)` when the result is finite; None stands for NaN. An array is read through its string. */
  function NumberOf(v: JsValue, numText: real -> string): (r: Option<real>)
    ensures v.Num? ==> r == Some(v.n)
    ensures v.Null? ==> r == Some(0.0)
    ensures v.Undefined? || v.Obj? ==> r.None?
    ensures v.Str? ==> r == StringToNumber(v.s)
  {
    match v
    case Undefined => None
    case Null => Some(0.0)
    case Bool(b) => Some(if b then 1.0 else 0.0)
    case Num(n) => Some(n)
    case Str(s) => StringToNumber(s)
    case Arr(_) => StringToNumber(ToJsString(v, numText))
    case Obj(_) => None
  }

  // ---------------------------------------------------------------------
  // Strings

  function LowerChar(c: char): char
  {
    if 'A' <= c <= 'Z' then (c as int + 32) as char else c
  }

  /** `s.toLowerCase()` for ASCII letters. */
  function ToLower(s: string): (r: string)
    ensures |r| == |s|
    ensures forall i :: 0 <= i < |s| ==> r[i] == LowerChar(s[i])
  {
    if s == [] then [] else [LowerChar(s[0])] + ToLower(s[1..])
  }

  lemma ToLowerIdempotent(s: string)
    ensures ToLower(ToLower(s)) == ToLower(s)
  {
    assert forall i :: 0 <= i < |s| ==> LowerChar(LowerChar(s[i])) == LowerChar(s[i]);
  }

  /** `s.includes(sub)`: `sub` occurs in `s` as a contiguous substring. */
  predicate Includes(s: string, sub: string)
  {
    sub <= s || (s != [] && Includes(s[1..], sub))
  }

  /** `sub` occurs in `s` starting at index `i`. */
  predicate OccursAt(s: string, sub: string, i: nat)
  {
    i + |sub| <= |s| && s[i..i + |sub|] == sub
  }

  /** Includes means there is a position where `sub` starts. */
  lemma {:induction false} IncludesAt(s: string, sub: string)
    ensures Includes(s, sub) <==> exists i: nat :: OccursAt(s, sub, i)
  {
    if sub <= s {
      assert OccursAt(s, sub, 0);
    } else if s == [] {
      assert forall i: nat :: !OccursAt(s, sub, i);
    } else {
      IncludesAt(s[1..], sub);
      forall i: nat | OccursAt(s, sub, i)
        ensures OccursAt(s[1..], sub, i - 1)
      {
        assert i != 0;
        assert s[1..][i - 1..i - 1 + |sub|] == s[i..i + |sub|];
      }
      forall j: nat | OccursAt(s[1..], sub, j)
        ensures OccursAt(s, sub, j + 1)
      {
        assert s[1..][j..j + |sub|] == s[j + 1..j + 1 + |sub|];
      }
    }
  }
}
