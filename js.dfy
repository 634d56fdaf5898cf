/** The small part of JavaScript's semantics that the explorer's code leans on:
    `undefined`, settled promises, `parseInt` with and without a radix, `slice(0, n)`, `substring`,
    `flat()`, `filter(...)[0]`, `indexOf` and `Promise.all`. */
module Js {

  /** A value that may be `undefined` (or `null`). */
  datatype Option<+T> = None | Some(value: T)

  /** How an awaited promise settles: it resolves with a value or rejects with an error message. */
  datatype Settled<+T> = Resolved(value: T) | Rejected(reason: string)

  /** `try { return await p } catch (e) { console.log(e) }`: a rejection becomes `undefined`. */
  function Caught<T>(p: Settled<T>): (r: Option<T>)
    ensures r.Some? <==> p.Resolved?
    ensures r.Some? ==> r.value == p.value
  {
    match p
    case Resolved(v) => Some(v)
    case Rejected(_) => None
  }

  /** `!x` for a `number | null`: null and 0 are falsy. */
  predicate Falsy(x: Option<int>) {
    x == None || x == Some(0)
  }

  /** `!x` for a `number | null` holding a fractional rate. */
  predicate FalsyReal(x: Option<real>) {
    x == None || x == Some(0.0)
  }

  /** A `string | undefined` used as a condition: only a non-empty string is truthy. */
  predicate TruthyString(x: Option<string>) {
    x.Some? && x.value != ""
  }

  /** `'' + x` for a `string | undefined`: undefined is spelled out. */
  function Str(x: Option<string>): (r: string)
    ensures x.Some? ==> r == x.value
    ensures x.None? ==> r == "undefined"
  {
    if x.Some? then x.value else "undefined"
  }

  /** `s.substring(start)`: the suffix from `start`, or "" when `start` is past the end. */
  function Substring(s: string, start: nat): (r: string)
    ensures start <= |s| ==> |r| == |s| - start && s == s[..start] + r
    ensures start > |s| ==> r == ""
  {
    if start <= |s| then s[start..] else ""
  }

  function Min(a: nat, b: nat): nat {
    if a <= b then a else b
  }

  /** `xs.slice(0, n)`: the first n elements, or all of them when there are fewer. */
  function SliceFromStart<T>(xs: seq<T>, n: nat): (r: seq<T>)
    ensures |r| == Min(n, |xs|)
    ensures forall i :: 0 <= i < |r| ==> r[i] == xs[i]
  {
    if n <= |xs| then xs[..n] else xs
  }

  // ---------------------------------------------------------------------------
  // parseInt(s, 10)
  // ---------------------------------------------------------------------------

  predicate IsDigit(c: char) {
    '0' <= c <= '9'
  }

  predicate AllDigits(s: string) {
    forall i :: 0 <= i < |s| ==> IsDigit(s[i])
  }

  function DigitValue(c: char): (d: nat)
    requires IsDigit(c)
    ensures d < 10
  {
    (c as int) - ('0' as int)
  }

  function DigitChar(d: nat): (c: char)
    requires d < 10
    ensures IsDigit(c) && DigitValue(c) == d
  {
    (('0' as int) + d) as char
  }

  /** The number a string of decimal digits denotes, most significant digit first. */
  function DecimalValue(s: string): nat
    requires AllDigits(s)
  {
    if s == [] then 0 else DecimalValue(s[..|s| - 1]) * 10 + DigitValue(s[|s| - 1])
  }

  /** The length of the longest prefix of `s` made of decimal digits. */
  function DigitRunLength(s: string): (k: nat)
    ensures k <= |s|
    ensures AllDigits(s[..k])
    ensures k < |s| ==> !IsDigit(s[k])
  {
    if s == [] || !IsDigit(s[0]) then 0
    else
      var k := 1 + DigitRunLength(s[1..]);
      assert s[..k] == [s[0]] + s[1..][..k - 1];
      k
  }

  /** `parseInt(s, 10)` on strings without leading blanks or sign: the value of the
      leading run of digits, and NaN (None) when `s` does not start with a digit. */
  function ParseInt(s: string): (r: Option<nat>)
    ensures r.None? <==> (s == [] || !IsDigit(s[0]))
    ensures AllDigits(s) && s != [] ==> r == Some(DecimalValue(s))
  {
    var k := DigitRunLength(s);
    assert k == |s| ==> s[..k] == s;
    if k == 0 then None else Some(DecimalValue(s[..k]))
  }

  /** The decimal spelling of a number, as `String(n)` gives it. */
  function NatToString(n: nat): (s: string)
    ensures s != [] && AllDigits(s)
  {
    if n < 10 then [DigitChar(n)] else NatToString(n / 10) + [DigitChar(n % 10)]
  }

  /** Parsing the decimal spelling of a number gives the number back. */
  lemma {:induction false} ParseIntNatToString(n: nat)
    ensures ParseInt(NatToString(n)) == Some(n)
  {
    DecimalValueNatToString(n);
  }

  lemma {:induction false} DecimalValueNatToString(n: nat)
    ensures DecimalValue(NatToString(n)) == n
  {
    var s := NatToString(n);
    if n >= 10 {
      DecimalValueNatToString(n / 10);
      assert s[..|s| - 1] == NatToString(n / 10);
    }
  }

  /** `parseInt` stops at the first character that is not a digit: trailing text is ignored. */
  lemma {:induction false} ParseIntIgnoresTrailingText(digits: string, rest: string)
    requires digits != [] && AllDigits(digits)
    requires rest == [] || !IsDigit(rest[0])
    ensures ParseInt(digits + rest) == Some(DecimalValue(digits))
  {
    DigitRunOfConcat(digits, rest);
    assert (digits + rest)[..|digits|] == digits;
  }

  lemma {:induction false} DigitRunOfConcat(digits: string, rest: string)
    requires AllDigits(digits)
    requires rest == [] || !IsDigit(rest[0])
    ensures DigitRunLength(digits + rest) == |digits|
  {
    if digits == [] {
      assert digits + rest == rest;
    } else {
      assert (digits + rest)[1..] == digits[1..] + rest;
      DigitRunOfConcat(digits[1..], rest);
    }
  }

  // ---------------------------------------------------------------------------
  // parseInt(s) without a radix
  // ---------------------------------------------------------------------------

  predicate IsHexDigit(c: char) {
    IsDigit(c) || 'a' <= c <= 'f' || 'A' <= c <= 'F'
  }

  predicate AllHexDigits(s: string) {
    forall i :: 0 <= i < |s| ==> IsHexDigit(s[i])
  }

  function HexDigitValue(c: char): (d: nat)
    requires IsHexDigit(c)
    ensures d < 16
    ensures IsDigit(c) ==> d == DigitValue(c)
  {
    if IsDigit(c) then DigitValue(c)
    else if 'a' <= c <= 'f' then (c as int) - ('a' as int) + 10
    else (c as int) - ('A' as int) + 10
  }

  /** The number a string of hexadecimal digits denotes, most significant digit first. */
  function HexValue(s: string): nat
    requires AllHexDigits(s)
  {
    if s == [] then 0 else HexValue(s[..|s| - 1]) * 16 + HexDigitValue(s[|s| - 1])
  }

  /** The length of the longest prefix of `s` made of hexadecimal digits. */
  function HexRunLength(s: string): (k: nat)
    ensures k <= |s|
    ensures AllHexDigits(s[..k])
    ensures k < |s| ==> !IsHexDigit(s[k])
  {
    if s == [] || !IsHexDigit(s[0]) then 0
    else
      var k := 1 + HexRunLength(s[1..]);
      assert s[..k] == [s[0]] + s[1..][..k - 1];
      k
  }

  /** The `0x` or `0X` prefix that makes a radix-less `parseInt` read hexadecimal. */
  predicate HasHexPrefix(s: string) {
    |s| >= 2 && s[0] == '0' && (s[1] == 'x' || s[1] == 'X')
  }

  /** `parseInt(s)` with no radix, on strings without leading blanks or sign: after a
      `0x` prefix the leading run of hexadecimal digits, otherwise as `parseInt(s, 10)`. */
  function ParseIntNoRadix(s: string): (r: Option<nat>)
    ensures !HasHexPrefix(s) ==> r == ParseInt(s)
    ensures HasHexPrefix(s) ==> (r.None? <==> (|s| == 2 || !IsHexDigit(s[2])))
    ensures HasHexPrefix(s) && |s| > 2 && AllHexDigits(s[2..]) ==> r == Some(HexValue(s[2..]))
  {
    if HasHexPrefix(s) then
      var digits := s[2..];
      var k := HexRunLength(digits);
      assert k == |digits| ==> digits[..k] == digits;
      if k == 0 then None else Some(HexValue(digits[..k]))
    else ParseInt(s)
  }

  /** After the `0x` prefix, radix-less `parseInt` stops at the first character that is
      not a hexadecimal digit: trailing text is ignored. */
  lemma {:induction false} ParseIntNoRadixIgnoresTrailingText(digits: string, rest: string)
    requires digits != [] && AllHexDigits(digits)
    requires rest == [] || !IsHexDigit(rest[0])
    ensures ParseIntNoRadix("0x" + digits + rest) == Some(HexValue(digits))
  {
    var s := "0x" + digits + rest;
    assert s[2..] == digits + rest;
    HexRunOfConcat(digits, rest);
    assert (digits + rest)[..|digits|] == digits;
  }

  lemma {:induction false} HexRunOfConcat(digits: string, rest: string)
    requires AllHexDigits(digits)
    requires rest == [] || !IsHexDigit(rest[0])
    ensures HexRunLength(digits + rest) == |digits|
  {
    if digits == [] {
      assert digits + rest == rest;
    } else {
      assert (digits + rest)[1..] == digits[1..] + rest;
      HexRunOfConcat(digits[1..], rest);
    }
  }

  /** A decimal spelling never carries the hexadecimal prefix, so both forms of
      `parseInt` read it alike. */
  lemma ParseIntNoRadixNatToString(n: nat)
    ensures ParseIntNoRadix(NatToString(n)) == Some(n)
  {
    var s := NatToString(n);
    assert |s| >= 2 ==> IsDigit(s[1]);
    ParseIntNatToString(n);
  }

  // ---------------------------------------------------------------------------
  // Array methods
  // ---------------------------------------------------------------------------

  /** The sum of the inner lengths of a nested list. */
  function TotalLength<T>(xss: seq<seq<T>>): nat {
    if xss == [] then 0 else |xss[0]| + TotalLength(xss[1..])
  }

  /** `xss.flat()`: one level of nesting removed. */
  function Flat<T>(xss: seq<seq<T>>): (r: seq<T>)
    ensures |r| == TotalLength(xss)
  {
    if xss == [] then [] else xss[0] + Flat(xss[1..])
  }

  lemma {:induction false} TotalLengthOfPrefix<T>(xss: seq<seq<T>>, i: nat)
    requires 0 < i <= |xss|
    ensures TotalLength(xss[..i]) == |xss[0]| + TotalLength(xss[1..][..i - 1])
  {
    assert xss[..i][1..] == xss[1..][..i - 1];
  }

  /** Element j of inner list i sits in the flattened list right after all elements
      of the lists before i: flattening keeps the order of the nested lists. */
  lemma {:induction false} FlatAt<T>(xss: seq<seq<T>>, i: int, j: int)
    requires 0 <= i < |xss| && 0 <= j < |xss[i]|
    ensures TotalLength(xss[..i]) + j < |Flat(xss)|
    ensures Flat(xss)[TotalLength(xss[..i]) + j] == xss[i][j]
  {
    if i == 0 {
      assert xss[..0] == [];
    } else {
      TotalLengthOfPrefix(xss, i);
      FlatAt(xss[1..], i - 1, j);
    }
  }

  /** `FlatAt` for every position at once. */
  lemma {:induction false} FlatOrder<T>(xss: seq<seq<T>>)
    ensures forall i, j :: 0 <= i < |xss| && 0 <= j < |xss[i]| ==> OrderKept(Flat(xss), xss, i, j)
  {
    forall i, j | 0 <= i < |xss| && 0 <= j < |xss[i]|
      ensures OrderKept(Flat(xss), xss, i, j)
    {
      FlatAt(xss, i, j);
    }
  }

  /** Element j of inner list i is found in `flat` right after all elements of the
      lists before i. */
  ghost predicate OrderKept<T>(flat: seq<T>, xss: seq<seq<T>>, i: int, j: int)
    requires 0 <= i < |xss| && 0 <= j < |xss[i]|
  {
    TotalLength(xss[..i]) + j < |flat| && flat[TotalLength(xss[..i]) + j] == xss[i][j]
  }

  /** `xs.filter(p)`. */
  function Filter<T>(xs: seq<T>, p: T -> bool): (r: seq<T>)
    ensures |r| <= |xs|
    ensures forall y :: y in r ==> y in xs && p(y)
  {
    if xs == [] then []
    else if p(xs[0]) then [xs[0]] + Filter(xs[1..], p)
    else Filter(xs[1..], p)
  }

  /** `xs.filter(p)[0]`: undefined when nothing passes the filter. */
  function FirstWhere<T>(xs: seq<T>, p: T -> bool): (r: Option<T>)
    ensures r.None? <==> forall i :: 0 <= i < |xs| ==> !p(xs[i])
    ensures r.Some? ==> exists k :: 0 <= k < |xs| && xs[k] == r.value && p(xs[k]) &&
                                    forall j :: 0 <= j < k ==> !p(xs[j])
  {
    var f := Filter(xs, p);
    FilterHead(xs, p);
    if f == [] then None else Some(f[0])
  }

  lemma {:induction false} FilterHead<T>(xs: seq<T>, p: T -> bool)
    ensures Filter(xs, p) == [] <==> forall i :: 0 <= i < |xs| ==> !p(xs[i])
    ensures Filter(xs, p) != [] ==> exists k :: 0 <= k < |xs| && xs[k] == Filter(xs, p)[0] && p(xs[k]) &&
                                              forall j :: 0 <= j < k ==> !p(xs[j])
  {
    if xs != [] {
      FilterHead(xs[1..], p);
      if !p(xs[0]) && Filter(xs, p) != [] {
        var k :| 0 <= k < |xs[1..]| && xs[1..][k] == Filter(xs[1..], p)[0] && p(xs[1..][k]) &&
                 forall j :: 0 <= j < k ==> !p(xs[1..][j]);
        assert xs[k + 1] == Filter(xs, p)[0];
        assert forall j :: 0 <= j < k + 1 ==> !p(xs[j]) by {
          forall j | 0 <= j < k + 1 ensures !p(xs[j]) {
            if j > 0 { assert xs[j] == xs[1..][j - 1]; }
          }
        }
      }
    }
  }

  /** `xs.indexOf(x)`: the first position holding x, or -1 when there is none. */
  function IndexOf<T(==)>(xs: seq<T>, x: T): (r: int)
    ensures -1 <= r < |xs|
    ensures r == -1 <==> x !in xs
    ensures 0 <= r ==> xs[r] == x && forall j :: 0 <= j < r ==> xs[j] != x
  {
    if xs == [] then -1
    else if xs[0] == x then 0
    else
      var k := IndexOf(xs[1..], x);
      if k < 0 then -1 else k + 1
  }

  /** `Promise.all(xs.map(f))`: resolves with the results in the order of xs when every
      call resolves, and rejects as a whole as soon as one of them rejects. Which
      rejection wins in time is not modelled: it is the one at the lowest index. */
  function All<A, B>(xs: seq<A>, f: A -> Settled<B>): (r: Settled<seq<B>>)
    ensures r.Resolved? <==> forall i :: 0 <= i < |xs| ==> f(xs[i]).Resolved?
    ensures r.Resolved? ==> |r.value| == |xs| && forall i :: 0 <= i < |xs| ==> r.value[i] == f(xs[i]).value
    ensures r.Rejected? ==> exists i :: 0 <= i < |xs| && f(xs[i]).Rejected? && f(xs[i]).reason == r.reason
  {
    if xs == [] then Resolved([])
    else
      match f(xs[0])
      case Rejected(m) => Rejected(m)
      case Resolved(v) =>
        match All(xs[1..], f)
        case Rejected(m) => Rejected(m)
        case Resolved(vs) => Resolved([v] + vs)
  }
}
