/** The JavaScript values the client handles (server JSON and the objects it builds),
    with the coercions its code relies on: truthiness, `??`, `||`, optional chaining,
    `Number(...)`, `parseFloat`, `parseInt` and `String(...)`. */
module Js {
  import opened Base
  import opened Text

  /** A JavaScript number. Infinities are not modelled; NaN is. */
  datatype Number = Fin(r: real) | NaN

  /** A JavaScript value. Objects are compared by contents, not identity. */
  datatype Val =
    | Undefined
    | Null
    | Bool(b: bool)
    | Num(n: Number)
    | Str(s: string)
    | Obj(fields: map<string, Val>)
    | Arr(elems: seq<Val>)

  const EmptyObj: Val := Obj(map[])

  function NumVal(r: real): Val {
    Num(Fin(r))
  }

  predicate Nullish(v: Val) {
    v.Undefined? || v.Null?
  }

  /** JavaScript truthiness: false, 0, NaN, "", null and undefined are falsy. */
  predicate Truthy(v: Val) {
    match v
    case Undefined => false
    case Null => false
    case Bool(b) => b
    case Num(n) => n.Fin? && n.r != 0.0
    case Str(s) => s != ""
    case Obj(_) => true
    case Arr(_) => true
  }

  /** `a ?? b` */
  function Coalesce(a: Val, b: Val): (r: Val)
    ensures Nullish(r) ==> Nullish(b)
    ensures r == a || r == b
  {
    if Nullish(a) then b else a
  }

  /** `vs[0] ?? vs[1] ?? ... ?? last`: the first of the values that is not null or undefined, or
      `last` when there is none. */
  function CoalesceAll(vs: seq<Val>, last: Val): (r: Val)
    ensures (forall i :: 0 <= i < |vs| ==> Nullish(vs[i])) ==> r == last
    ensures forall i :: 0 <= i < |vs| && !Nullish(vs[i]) && (forall j :: 0 <= j < i ==> Nullish(vs[j])) ==> r == vs[i]
  {
    if vs == [] then last
    else if !Nullish(vs[0]) then vs[0]
    else CoalesceAll(vs[1..], last)
  }

  /** A chain `a ?? b ?? last` is the first present value of [a, b], else `last`. */
  lemma CoalesceChain2(a: Val, b: Val, last: Val)
    ensures Coalesce(Coalesce(a, b), last) == CoalesceAll([a, b], last)
  {
    assert [a, b][1..] == [b];
    assert [b][1..] == [];
  }

  /** A chain `a ?? b ?? c ?? last` is the first present value of [a, b, c], else `last`. */
  lemma CoalesceChain3(a: Val, b: Val, c: Val, last: Val)
    ensures Coalesce(Coalesce(Coalesce(a, b), c), last) == CoalesceAll([a, b, c], last)
  {
    assert [a, b, c][1..] == [b, c];
    CoalesceChain2(b, c, last);
    if Nullish(a) {
      assert Coalesce(a, b) == b;
    }
  }

  /** A chain `a ?? b ?? c ?? d ?? last` is the first present value of [a, b, c, d], else `last`. */
  lemma CoalesceChain4(a: Val, b: Val, c: Val, d: Val, last: Val)
    ensures Coalesce(Coalesce(Coalesce(Coalesce(a, b), c), d), last) == CoalesceAll([a, b, c, d], last)
  {
    assert [a, b, c, d][1..] == [b, c, d];
    CoalesceChain3(b, c, d, last);
    if Nullish(a) {
      assert Coalesce(a, b) == b;
    }
  }

  /** `a || b` */
  function Or(a: Val, b: Val): (r: Val)
    ensures Truthy(r) <==> Truthy(a) || Truthy(b)
    ensures r == a || r == b
  {
    if Truthy(a) then a else b
  }

  /** `v?.k`: a missing property, or any property of null/undefined, reads as undefined.
      Properties that primitives inherit from their prototypes are not modelled. */
  function Get(v: Val, k: string): Val {
    if v.Obj? && k in v.fields then v.fields[k] else Undefined
  }

  /** `v.k` without optional chaining: reading a property of null or undefined throws a TypeError. */
  function Member(v: Val, k: string): (r: Result<Val, string>)
    ensures r.Err? <==> Nullish(v)
    ensures r.Ok? ==> r.value == Get(v, k)
  {
    if Nullish(v) then Err(TypeErrorText) else Ok(Get(v, k))
  }

  /** The text of the TypeError thrown by a property read on null or undefined. The engine's
      exact wording (which names the property) is not modelled. */
  const TypeErrorText: string := "Cannot read properties of null or undefined"

  // ---------------------------------------------------------------------------
  // Numbers

  function Negate(n: Number): Number {
    if n.NaN? then NaN else Fin(-n.r)
  }

  /** `a + b` on numbers */
  function Add(a: Number, b: Number): (r: Number)
    ensures r.Fin? <==> a.Fin? && b.Fin?
    ensures r.Fin? ==> r.r == a.r + b.r
  {
    if a.Fin? && b.Fin? then Fin(a.r + b.r) else NaN
  }

  /** `a * b` on numbers */
  function Mul(a: Number, b: Number): (r: Number)
    ensures r.Fin? <==> a.Fin? && b.Fin?
    ensures r.Fin? ==> r.r == a.r * b.r
  {
    if a.Fin? && b.Fin? then Fin(a.r * b.r) else NaN
  }

  /** `a <= b`; every comparison with NaN is false. */
  predicate LessEq(a: Number, b: Number) {
    a.Fin? && b.Fin? && a.r <= b.r
  }

  /** `Math.max(a, b)`: NaN if either argument is NaN. */
  function Max(a: Number, b: Number): (r: Number)
    ensures r.Fin? <==> a.Fin? && b.Fin?
    ensures r.Fin? ==> r.r >= a.r && r.r >= b.r && (r.r == a.r || r.r == b.r)
  {
    if a.Fin? && b.Fin? then Fin(if a.r >= b.r then a.r else b.r) else NaN
  }

  /** `Math.min(a, b)`: NaN if either argument is NaN. */
  function Min(a: Number, b: Number): (r: Number)
    ensures r.Fin? <==> a.Fin? && b.Fin?
    ensures r.Fin? ==> r.r <= a.r && r.r <= b.r && (r.r == a.r || r.r == b.r)
  {
    if a.Fin? && b.Fin? then Fin(if a.r <= b.r then a.r else b.r) else NaN
  }

  // ---------------------------------------------------------------------------
  // String to number

  /** Unsigned decimal literal: digits with an optional fraction, or a fraction alone
      ("12", "12.", "12.5", ".5"). Anything else is NaN. */
  function UnsignedDecimal(s: string): (r: Number)
    ensures r.Fin? ==> r.r >= 0.0
  {
    var n := LeadingDigits(s);
    if 0 < n && n == |s| then Fin(DigitsValue(s) as real)
    else if n < |s| && s[n] == '.' && AllDigits(s[n + 1..]) && (n > 0 || n + 1 < |s|) then
      Fin(DigitsValue(s[..n]) as real + FractionValue(s[n + 1..]))
    else NaN
  }

  /** `Number(s)` for a string: surrounding whitespace is ignored, the empty string is 0,
      an optional sign precedes a decimal literal. */
  function StringToNumber(s: string): (r: Number)
    ensures Trim(s) == [] ==> r == Fin(0.0)
  {
    var t := Trim(s);
    if t == [] then Fin(0.0)
    else if t[0] == '-' then Negate(UnsignedDecimal(t[1..]))
    else if t[0] == '+' then UnsignedDecimal(t[1..])
    else UnsignedDecimal(t)
  }

  /** The longest decimal prefix of s, as `parseFloat` reads it; NaN when there is none. */
  function DecimalPrefix(s: string): (r: Number)
    ensures r.Fin? ==> r.r >= 0.0
  {
    var n := LeadingDigits(s);
    if n < |s| && s[n] == '.' then
      var m := LeadingDigits(s[n + 1..]);
      if n == 0 && m == 0 then NaN
      else Fin(DigitsValue(s[..n]) as real + FractionValue(s[n + 1..][..m]))
    else if n == 0 then NaN
    else Fin(DigitsValue(s[..n]) as real)
  }

  function SignedPrefix(t: string, read: string -> Number): Number {
    if t != [] && t[0] == '-' then Negate(read(t[1..]))
    else if t != [] && t[0] == '+' then read(t[1..])
    else read(t)
  }

  /** `parseFloat(s)`: leading whitespace, an optional sign, then the longest decimal prefix. */
  function ParseFloat(s: string): Number {
    SignedPrefix(TrimStart(s), DecimalPrefix)
  }

  function DigitPrefix(s: string): (r: Number)
    ensures r.Fin? ==> r.r >= 0.0 && r.r == r.r.Floor as real
  {
    var n := LeadingDigits(s);
    if n == 0 then NaN else Fin(DigitsValue(s[..n]) as real)
  }

  /** `parseInt(s)` in base 10: leading whitespace, an optional sign, then the leading digits. */
  function ParseInt(s: string): Number {
    SignedPrefix(TrimStart(s), DigitPrefix)
  }

  /** `Number(v)`: objects and arrays go through their string form, as ToPrimitive does. */
  function ToNumber(v: Val): (r: Number)
    ensures v.Num? ==> r == v.n
    ensures v.Null? ==> r == Fin(0.0)
    ensures v.Undefined? ==> r == NaN
  {
    match v
    case Undefined => NaN
    case Null => Fin(0.0)
    case Bool(b) => Fin(if b then 1.0 else 0.0)
    case Num(n) => n
    case Str(s) => StringToNumber(s)
    case Obj(_) => StringToNumber(ToJsString(v))
    case Arr(_) => StringToNumber(ToJsString(v))
  }

  // ---------------------------------------------------------------------------
  // Number and value to string

  /** Up to k decimal digits of a fraction 0 <= f < 1, stopping once the rest is zero. */
  function FractionDigits(f: real, k: nat): (s: string)
    requires 0.0 <= f < 1.0
    ensures AllDigits(s)
    decreases k
  {
    var x := f * 10.0;
    var d := x.Floor;
    var rest := x - d as real;
    if rest == 0.0 || k <= 1 then [DigitChar(d)] else [DigitChar(d)] + FractionDigits(rest, k - 1)
  }

  /** `String(x)` for a number: integers print as their decimal digits; other values print their
      exact decimal expansion cut at 20 fraction digits (the shortest-round-trip rule of the engine
      and its exponent notation are not modelled). */
  function NumberToString(n: Number): string {
    if n.NaN? then "NaN"
    else if n.r < 0.0 then "-" + UnsignedToString(-n.r)
    else UnsignedToString(n.r)
  }

  function UnsignedToString(r: real): string
    requires r >= 0.0
  {
    var ip := r.Floor;
    var f := r - ip as real;
    if f == 0.0 then NatToString(ip) else NatToString(ip) + "." + FractionDigits(f, 20)
  }

  /** `String(v)` and template-literal interpolation. */
  function ToJsString(v: Val): string
    decreases v
  {
    match v
    case Undefined => "undefined"
    case Null => "null"
    case Bool(b) => if b then "true" else "false"
    case Num(n) => NumberToString(n)
    case Str(s) => s
    case Obj(_) => "[object Object]"
    case Arr(es) => JoinWithCommas(seq(|es|, i requires 0 <= i < |es| =>
                      if Nullish(es[i]) then "" else ToJsString(es[i])))
  }

  /** `Array.prototype.join(",")` on already converted elements. */
  function JoinWithCommas(parts: seq<string>): string {
    if parts == [] then ""
    else if |parts| == 1 then parts[0]
    else JoinWithCommas(parts[..|parts| - 1]) + "," + parts[|parts| - 1]
  }

  // ---------------------------------------------------------------------------
  // Round trips between numbers and their spelling

  lemma UnsignedDecimalOfDigits(s: string)
    requires |s| >= 1 && AllDigits(s)
    ensures UnsignedDecimal(s) == Fin(DigitsValue(s) as real)
    ensures DecimalPrefix(s) == Fin(DigitsValue(s) as real)
    ensures DigitPrefix(s) == Fin(DigitsValue(s) as real)
  {
    DigitsAreLeading(s);
    assert s[..|s|] == s;
  }

  lemma DigitsAreLeading(s: string)
    requires AllDigits(s)
    ensures LeadingDigits(s) == |s|
  {
    if s != [] {
      assert AllDigits(s[1..]);
      DigitsAreLeading(s[1..]);
    }
  }

  lemma NoSpaceInNumber(s: string)
    requires forall k :: 0 <= k < |s| ==> IsDigit(s[k]) || s[k] == '-'
    ensures forall k :: 0 <= k < |s| ==> !IsSpace(s[k])
  {
  }

  /** Printing an integer and reading it back with `Number`, `parseFloat` or `parseInt` gives
      the same integer. */
  lemma IntegerSpellingRoundTrip(i: int)
    ensures StringToNumber(NumberToString(Fin(i as real))) == Fin(i as real)
    ensures ParseFloat(NumberToString(Fin(i as real))) == Fin(i as real)
    ensures ParseInt(NumberToString(Fin(i as real))) == Fin(i as real)
  {
    var n: nat := if i < 0 then -i else i;
    var digits := NatToString(n);
    var s := NumberToString(Fin(i as real));
    IntegerSpellingShape(i);
    ReadsDigits(n);
    assert digits[0] != '-' && digits[0] != '+';
    if i < 0 {
      assert s[0] == '-' && s[1..] == digits;
      assert Negate(Fin(n as real)) == Fin(i as real);
    }
  }

  /** Every reader takes the digits of a natural number back to that number. */
  lemma ReadsDigits(n: nat)
    ensures UnsignedDecimal(NatToString(n)) == Fin(n as real)
    ensures DecimalPrefix(NatToString(n)) == Fin(n as real)
    ensures DigitPrefix(NatToString(n)) == Fin(n as real)
  {
    NatToStringRoundTrip(n);
    UnsignedDecimalOfDigits(NatToString(n));
  }

  /** An integer prints as its digits, after a '-' when negative, with no surrounding space. */
  lemma IntegerSpellingShape(i: int)
    ensures var n: nat := if i < 0 then -i else i;
            var s := NumberToString(Fin(i as real));
            s == (if i < 0 then "-" + NatToString(n) else NatToString(n))
            && Trim(s) == s && TrimStart(s) == s
  {
    var n: nat := if i < 0 then -i else i;
    var digits := NatToString(n);
    assert UnsignedToString(n as real) == digits by {
      assert (n as real).Floor == n;
    }
    var s := NumberToString(Fin(i as real));
    assert s == if i < 0 then "-" + digits else digits;
    NoSpaceInNumber(s);
    assert LeadingSpaces(s) == 0;
    assert TrimStart(s) == s;
    TrimOfUnspaced(s);
  }

  /** An integer prints as digits with at most a leading '-', the first character never a space. */
  lemma IntegerSpellingChars(i: int)
    ensures NumberToString(Fin(i as real)) == IntToString(i)
    ensures forall k :: 0 <= k < |IntToString(i)| ==> IsDigit(IntToString(i)[k]) || IntToString(i)[k] == '-'
  {
    var n: nat := if i < 0 then -i else i;
    assert (n as real).Floor == n;
  }

  lemma TrimOfUnspaced(s: string)
    requires s != [] && forall k :: 0 <= k < |s| ==> !IsSpace(s[k])
    ensures Trim(s) == s
  {
    var t := Trim(s);
    var i, j :| 0 <= i <= j <= |s| && t == s[i..j]
                && forall k :: 0 <= k < |s| && !(i <= k < j) ==> IsSpace(s[k]);
    assert !IsSpace(s[0]) && !IsSpace(s[|s| - 1]);
    assert i == 0 && j == |s|;
    assert t == s[0..|s|];
  }
}
