/**
 * The JavaScript values the components handle and the built-in operations
 * they rely on: truthiness, `a || b`, `String(v)`, `parseInt(s, 10)`,
 * `Array.prototype.splice(i, 1)`, `Array.prototype.slice(0, end)`,
 * `Array.prototype.join` and property reads and writes on plain objects.
 */
module Js {

  datatype Option<T> = None | Some(value: T)

  /** A JavaScript value; numbers are integers or NaN. */
  datatype Value =
    | Undefined
    | Null
    | Bool(b: bool)
    | Num(n: int)
    | NaN
    | Str(s: string)
    | Arr(items: seq<Value>)
    | Obj(fields: map<string, Value>)

  /**
   * A plain object: its own properties by name. Where the order in which a
   * `for…in` visits them matters, the model keeps that order as a separate
   * list of keys.
   */
  type Object = map<string, Value>

  function Max(a: int, b: int): int { if a < b then b else a }
  function Min(a: int, b: int): int { if a < b then a else b }

  /** ToBoolean: the values an `if (v)` lets through. */
  predicate Truthy(v: Value) {
    match v
    case Undefined => false
    case Null => false
    case Bool(b) => b
    case Num(n) => n != 0
    case NaN => false
    case Str(s) => s != ""
    case Arr(_) => true
    case Obj(_) => true
  }

  /** `undefined` or `null`: the values whose properties cannot be read. */
  predicate Nullish(v: Value) { v == Undefined || v == Null }

  /** `a || b`: the first operand when it is truthy, else the second. */
  function Or(a: Value, b: Value): (r: Value)
    ensures Truthy(r) <==> Truthy(a) || Truthy(b)
    ensures Truthy(a) ==> r == a
    ensures !Truthy(a) ==> r == b
  {
    if Truthy(a) then a else b
  }

  // ---------------------------------------------------------------- digits

  predicate IsDigit(c: char) { '0' <= c <= '9' }

  predicate AllDigits(s: string) { forall i :: 0 <= i < |s| ==> IsDigit(s[i]) }

  function DigitChar(d: int): (c: char)
    requires 0 <= d < 10
    ensures IsDigit(c) && c as int - '0' as int == d
  {
    ('0' as int + d) as char
  }

  /** Decimal text of a natural number, without leading zeros. */
  function NatToString(n: nat): (s: string)
    ensures |s| >= 1 && AllDigits(s)
    ensures s[0] == '0' ==> n == 0
    decreases n
  {
    if n < 10 then [DigitChar(n)] else NatToString(n / 10) + [DigitChar(n % 10)]
  }

  /** `String(n)` for an integer. */
  function IntToString(n: int): string {
    if n < 0 then "-" + NatToString(-n) else NatToString(n)
  }

  /** The number a run of decimal digits denotes. */
  function DigitsValue(ds: string): nat
    requires AllDigits(ds)
  {
    if |ds| == 0 then 0
    else DigitsValue(ds[..|ds| - 1]) * 10 + (ds[|ds| - 1] as int - '0' as int)
  }

  /** `String(v)` (also a template literal's `${v}` and `FormData.append`'s conversion). */
  function ToString(v: Value): string {
    match v
    case Undefined => "undefined"
    case Null => "null"
    case Bool(b) => if b then "true" else "false"
    case Num(n) => IntToString(n)
    case NaN => "NaN"
    case Str(s) => s
    case Arr(items) =>
      Join(seq(|items|, i requires 0 <= i < |items| =>
        if items[i].Undefined? || items[i].Null? then "" else ToString(items[i])), ",")
    case Obj(_) => "[object Object]"
  }

  /** `parts.join(sep)` on strings. */
  function Join(parts: seq<string>, sep: string): string {
    if |parts| == 0 then ""
    else if |parts| == 1 then parts[0]
    else parts[0] + sep + Join(parts[1..], sep)
  }

  /** The characters `\s` matches and `parseInt` skips (WhiteSpace and LineTerminator). */
  predicate IsSpace(c: char) {
    var k := c as int;
    k == 0x09 || k == 0x0A || k == 0x0B || k == 0x0C || k == 0x0D || k == 0x20
    || k == 0xA0 || k == 0x1680 || (0x2000 <= k <= 0x200A) || k == 0x2028
    || k == 0x2029 || k == 0x202F || k == 0x205F || k == 0x3000 || k == 0xFEFF
  }

  // ---------------------------------------------------------------- parseInt

  function TrimStart(s: string): (t: string)
    ensures |t| <= |s| && t == s[|s| - |t|..]
    ensures |t| > 0 ==> !IsSpace(t[0])
  {
    if |s| > 0 && IsSpace(s[0]) then TrimStart(s[1..]) else s
  }

  /** The longest run of decimal digits at the start of `s`. */
  function DigitPrefix(s: string): (ds: string)
    ensures AllDigits(ds) && |ds| <= |s| && ds == s[..|ds|]
    ensures |ds| < |s| ==> !IsDigit(s[|ds|])
  {
    if |s| > 0 && IsDigit(s[0]) then [s[0]] + DigitPrefix(s[1..]) else []
  }

  /** The digits read by `parseInt` after the sign: NaN when there are none. */
  function ParseDigits(body: string): (v: Value)
    ensures v.Num? || v.NaN?
    ensures v.Num? ==> v.n >= 0
  {
    var ds := DigitPrefix(body);
    if ds == [] then NaN else Num(DigitsValue(ds))
  }

  /** Unary minus on what `ParseDigits` returns. */
  function Negate(v: Value): Value {
    if v.Num? then Num(-v.n) else v
  }

  /**
   * `parseInt(s, 10)`: skips leading white space, reads an optional sign and
   * the longest run of digits after it; NaN when there are no digits.
   */
  function ParseInt(s: string): (v: Value)
    ensures v.Num? || v.NaN?
  {
    var t := TrimStart(s);
    if |t| > 0 && t[0] == '-' then Negate(ParseDigits(t[1..]))
    else if |t| > 0 && t[0] == '+' then ParseDigits(t[1..])
    else ParseDigits(t)
  }

  lemma {:induction false} DigitsValueSnoc(ds: string, c: char)
    requires AllDigits(ds) && IsDigit(c)
    ensures AllDigits(ds + [c])
    ensures DigitsValue(ds + [c]) == DigitsValue(ds) * 10 + (c as int - '0' as int)
  {
    assert (ds + [c])[..|ds|] == ds;
  }

  lemma {:induction false} DigitsValueOfNatToString(n: nat)
    ensures DigitsValue(NatToString(n)) == n
    decreases n
  {
    if n >= 10 {
      DigitsValueOfNatToString(n / 10);
      DigitsValueSnoc(NatToString(n / 10), DigitChar(n % 10));
    }
  }

  lemma {:induction false} DigitPrefixOfDigits(s: string)
    requires AllDigits(s)
    ensures DigitPrefix(s) == s
  {
    if |s| > 0 {
      DigitPrefixOfDigits(s[1..]);
    }
  }

  lemma TrimStartOfNonSpace(t: string)
    requires |t| > 0 && !IsSpace(t[0])
    ensures TrimStart(t) == t
  {
  }

  /** A run of digits is read whole, as its decimal value. */
  lemma ParseDigitsOfDigits(ds: string)
    requires AllDigits(ds) && ds != []
    ensures ParseDigits(ds) == Num(DigitsValue(ds))
  {
    DigitPrefixOfDigits(ds);
  }

  /** `parseInt` reads a run of digits as its decimal value. */
  lemma ParseIntOfDigits(ds: string)
    requires AllDigits(ds) && ds != []
    ensures ParseInt(ds) == Num(DigitsValue(ds))
  {
    assert IsDigit(ds[0]);
    TrimStartOfNonSpace(ds);
    ParseDigitsOfDigits(ds);
  }

  /** After a leading minus sign `parseInt` negates the digits that follow. */
  lemma ParseIntAfterMinus(t: string)
    requires |t| > 0 && t[0] == '-'
    ensures ParseInt(t) == Negate(ParseDigits(t[1..]))
  {
    assert !IsSpace(t[0]);
    TrimStartOfNonSpace(t);
  }

  /** The text of a negative number: a minus sign, then the digits. */
  lemma MinusThenDigits(ds: string)
    ensures ("-" + ds)[0] == '-' && ("-" + ds)[1..] == ds
  {
  }

  /** A minus sign before a run of digits: the digits' value, negated. */
  lemma NegatedDigitsValue(ds: string)
    requires AllDigits(ds) && ds != []
    ensures Negate(ParseDigits(ds)) == Num(-(DigitsValue(ds) as int))
  {
    ParseDigitsOfDigits(ds);
  }

  /** `parseInt` reads a minus sign and a run of digits as the negated value. */
  lemma ParseIntOfNegatedDigits(ds: string)
    requires AllDigits(ds) && ds != []
    ensures ParseInt("-" + ds) == Num(-(DigitsValue(ds) as int))
  {
    MinusThenDigits(ds);
    ParseIntAfterMinus("-" + ds);
    NegatedDigitsValue(ds);
  }

  /** `parseInt(String(n), 10) === n` for every integer `n`. */
  lemma ParseIntOfIntToString(n: int)
    ensures ParseInt(IntToString(n)) == Num(n)
  {
    var m: nat := if n < 0 then -n else n;
    DigitsValueOfNatToString(m);
    if n < 0 {
      ParseIntOfNegatedDigits(NatToString(m));
    } else {
      ParseIntOfDigits(NatToString(m));
    }
  }

  // ---------------------------------------------------------------- arrays

  /** `a.splice(i, 1)` on a copy: a negative index counts from the end; an index past the end removes nothing. */
  function SpliceOne<T>(s: seq<T>, i: int): (r: seq<T>)
    ensures 0 <= i < |s| ==> r == s[..i] + s[i + 1..]
    ensures -|s| <= i < 0 ==> r == s[..|s| + i] + s[|s| + i + 1..]
    ensures i >= |s| ==> r == s
    ensures i < -|s| && s != [] ==> r == s[1..]
    ensures |r| == if s != [] && i < |s| then |s| - 1 else |s|
  {
    var start := if i < 0 then Max(|s| + i, 0) else Min(i, |s|);
    if start < |s| then s[..start] + s[start + 1..] else s
  }

  /** `a.slice(0, end)`: a negative end counts from the end of the array. */
  function SliceTo<T>(s: seq<T>, end: int): (r: seq<T>)
    ensures |r| <= |s| && r == s[..|r|]
    ensures 0 <= end ==> |r| == Min(end, |s|)
    ensures end < 0 ==> |r| == Max(|s| + end, 0)
  {
    var stop := if end < 0 then Max(|s| + end, 0) else Min(end, |s|);
    s[..stop]
  }

  /**
   * `a.map(f)` with a callback that may throw (None): the whole call throws
   * when the callback throws on any element.
   */
  function MapOrThrow<A, B>(a: seq<A>, f: A -> Option<B>): (r: Option<seq<B>>)
    ensures r.Some? <==> forall i :: 0 <= i < |a| ==> f(a[i]).Some?
    ensures r.Some? ==> |r.value| == |a| && forall i :: 0 <= i < |a| ==> r.value[i] == f(a[i]).value
  {
    if a == [] then Some([])
    else
      var rest := MapOrThrow(a[1..], f);
      if f(a[0]).None? then None
      else if rest.None? then
        assert exists i :: 0 <= i < |a[1..]| && f(a[1..][i]).None?;
        None
      else Some([f(a[0]).value] + rest.value)
  }

  // ---------------------------------------------------------------- objects

  /** `o[k]`: the property's value, or undefined when `o` has no property `k`. */
  function Lookup(o: Object, k: string): (v: Value)
    ensures k !in o ==> v == Undefined
    ensures k in o ==> v == o[k]
  {
    if k in o then o[k] else Undefined
  }

  /** `v?.k`: undefined on undefined or null; a property of a value other than an object reads as undefined. */
  function OptionalMember(v: Value, k: string): (r: Value)
    ensures !v.Obj? ==> r == Undefined
    ensures v.Obj? ==> r == Lookup(v.fields, k)
  {
    if v.Obj? then Lookup(v.fields, k) else Undefined
  }

  /** `v.k`: a TypeError (None) on undefined or null, otherwise the same as `v?.k`. */
  function Member(v: Value, k: string): (r: Option<Value>)
    ensures r.None? <==> Nullish(v)
    ensures r.Some? ==> r.value == OptionalMember(v, k)
  {
    if Nullish(v) then None else Some(OptionalMember(v, k))
  }
}
