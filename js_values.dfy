/**
 * The JavaScript values that flow through the console: property values of
 * Neo4j nodes and relationships, algorithm parameters and configuration.
 * Truthiness (`if (v)`, `a || b`) and `String(v)` / template-literal
 * conversion are stated once here and used by every other module.
 */
module JsValues {
  import opened JsStrings

  /** A JavaScript number: a finite value with a terminating decimal expansion,
      `mantissa / 10^scale`, or NaN. */
  datatype Number = Dec(mantissa: int, scale: nat) | NaN

  /** A JavaScript value. `Int` is the Neo4j driver's 64-bit Integer, which is an
      object (so always truthy) rather than a number. */
  datatype Value =
    | Undefined
    | Null
    | Bool(b: bool)
    | Num(n: Number)
    | Str(s: string)
    | Int(i: int)
    | Arr(items: seq<Value>)
    | Obj(fields: Props)

  /** A plain object as its own enumerable properties, in enumeration order. */
  type Props = seq<(string, Value)>

  /** A whole number as a JavaScript number. */
  function IntNumber(i: int): Number {
    Dec(i, 0)
  }

  /** JavaScript truthiness: false, 0, NaN, "", null and undefined are falsy; every object is truthy. */
  predicate Truthy(v: Value) {
    match v
    case Undefined => false
    case Null => false
    case Bool(b) => b
    case Num(n) => n.Dec? && n.mantissa != 0
    case Str(s) => s != ""
    case Int(_) => true
    case Arr(_) => true
    case Obj(_) => true
  }

  /** `a || b`: the first operand when it is truthy, otherwise the second. */
  function Or(a: Value, b: Value): (r: Value)
    ensures Truthy(r) <==> Truthy(a) || Truthy(b)
    ensures Truthy(a) ==> r == a
    ensures !Truthy(a) ==> r == b
  {
    if Truthy(a) then a else b
  }

  // ---------------------------------------------------------------------------
  // String(v)
  // ---------------------------------------------------------------------------

  function Pow10(e: nat): (p: nat)
    ensures p >= 1
  {
    if e == 0 then 1 else 10 * Pow10(e - 1)
  }

  /** The significant digits of a positive `a * 10^x`: trailing zeros move into the exponent. */
  function Significand(a: nat, x: int): (r: (nat, int))
    requires a > 0
    ensures r.0 > 0 && r.0 % 10 != 0 && r.1 >= x
    decreases a
  {
    if a % 10 == 0 then Significand(a / 10, x + 1) else (a, x)
  }

  /** Moving the zeros does not change the number denoted. */
  lemma {:induction false} SignificandKeepsValue(a: nat, x: int)
    requires a > 0
    ensures Significand(a, x).0 * Pow10(Significand(a, x).1 - x) == a
    decreases a
  {
    if a % 10 == 0 {
      SignificandKeepsValue(a / 10, x + 1);
      var r := Significand(a / 10, x + 1);
      assert Significand(a, x) == r;
      var m: nat := r.1 - (x + 1);
      var p := Pow10(m);
      assert Pow10(m + 1) == 10 * p;
      assert r.0 * p == a / 10;
      calc {
        r.0 * (10 * p);
        10 * (r.0 * p);
        10 * (a / 10);
        a;
      }
    }
  }

  function Zeros(n: nat): (z: string)
    ensures |z| == n
    ensures forall k :: 0 <= k < n ==> z[k] == '0'
  {
    if n == 0 then "" else "0" + Zeros(n - 1)
  }

  /** Where the decimal point of a positive `a * 10^x` falls: the number is `0.d1d2...dk`
      times `10^n`, with `d1...dk` its significant digits. */
  function PointPosition(a: nat, x: int): int
    requires a > 0
  {
    var r := Significand(a, x);
    |NatText(r.0)| + r.1
  }

  /** A text has no exponent marker when all its characters are digits, points or signs. */
  predicate Plain(t: string) {
    forall k :: 0 <= k < |t| ==> t[k] != 'e'
  }

  /** `Number::toString` of a positive `a * 10^x`: the digits with zeros or a point when the
      point falls from 10^-6 up to 10^21, and the exponent form `d.ddde+n` otherwise. */
  function MagnitudeText(a: nat, x: int): (t: string)
    requires a > 0
  {
    var r := Significand(a, x);
    var digits := NatText(r.0);
    var k := |digits|;
    var n := k + r.1;
    if k <= n <= 21 then
      digits + Zeros(n - k)
    else if 0 < n <= 21 then
      digits[..n] + "." + digits[n..]
    else if -6 < n <= 0 then
      "0." + Zeros(-n) + digits
    else
      ExponentForm(digits, n)
  }

  /** The exponent marker appears exactly when the point falls outside 10^-6 up to 10^21. */
  lemma MagnitudePlain(a: nat, x: int)
    requires a > 0
    ensures Plain(MagnitudeText(a, x)) <==> -6 < PointPosition(a, x) <= 21
  {
    var r := Significand(a, x);
    var digits := NatText(r.0);
    assert Plain(digits);
  }

  /** Outside the plain range (from 10^21 on, and below 10^-6) the text is the exponent form
      of the significant digits. */
  lemma MagnitudeExponent(a: nat, x: int)
    requires a > 0
    requires !(-6 < PointPosition(a, x) <= 21)
    ensures MagnitudeText(a, x) == ExponentForm(NatText(Significand(a, x).0), PointPosition(a, x))
  {
  }

  /** `d.ddde+x` or `d.ddde-x`: the first digit, the others after a point, and the exponent
      `n - 1` with its sign. */
  function ExponentForm(digits: string, n: int): (t: string)
    requires |digits| >= 1
    ensures !Plain(t)
  {
    var e := n - 1;
    var exponent := (if e < 0 then "-" else "+") + NatText(if e < 0 then -e else e);
    var mantissa := if |digits| == 1 then digits else digits[..1] + "." + digits[1..];
    var t := mantissa + "e" + exponent;
    assert t[|mantissa|] == 'e';
    t
  }

  /** Text of a JavaScript number, as `String(n)` writes it ("1" for 1.0, "0.85", "-2.5",
      "1e-7", "1e+21", "NaN"). */
  function NumberText(n: Number): string {
    match n
    case NaN => "NaN"
    case Dec(m, e) =>
      if m == 0 then "0"
      else (if m < 0 then "-" else "") + MagnitudeText(if m < 0 then -m else m, -(e as int))
  }

  /** A positive number is written without a sign. */
  lemma PositiveNumberText(m: nat, scale: nat)
    requires m > 0
    ensures NumberText(Dec(m, scale)) == MagnitudeText(m, -(scale as int))
  {
    assert "" + MagnitudeText(m, -(scale as int)) == MagnitudeText(m, -(scale as int));
  }

  /** The significant digits of a power of ten are a single 1. */
  lemma {:induction false} SignificandOfPower(n: nat, x: int)
    ensures Significand(Pow10(n), x) == (1, x + n)
    decreases n
  {
    if n > 0 {
      assert Pow10(n) % 10 == 0 && Pow10(n) / 10 == Pow10(n - 1);
      SignificandOfPower(n - 1, x + 1);
    }
  }

  /** From 10^21 on, a power of ten is written in the exponent form. */
  lemma LargePowerText(e: nat)
    requires e >= 21
    ensures !Plain(MagnitudeText(Pow10(e), 0))
  {
    SignificandOfPower(e, 0);
    assert NatText(1) == "1";
    MagnitudePlain(Pow10(e), 0);
  }

  /** Whole numbers below 10^21 are written as plain digits, with no point. */
  lemma WholeNumberText()
    ensures NumberText(Dec(1200, 0)) == "1200"
    ensures NumberText(Dec(1000, 3)) == "1"
  {
    assert Significand(1200, 0) == (12, 2) && NatText(12) == "12";
    assert MagnitudeText(1200, 0) == "1200";
    assert Significand(1000, -3) == (1, 0) && NatText(1) == "1";
    assert MagnitudeText(1000, -3) == "1";
  }

  /** A number below one, down to 10^-6, is written with "0." and leading zeros. */
  lemma FractionText()
    ensures NumberText(Dec(85, 2)) == "0.85"
    ensures NumberText(Dec(1, 6)) == "0.000001"
  {
    assert Significand(85, -2) == (85, -2) && NatText(85) == "85";
    assert MagnitudeText(85, -2) == "0.85";
    assert Significand(1, -6) == (1, -6) && NatText(1) == "1";
    assert MagnitudeText(1, -6) == "0.000001";
  }

  /** Below 10^-6 the exponent form takes over. */
  lemma SmallNumberText()
    ensures NumberText(Dec(1, 7)) == "1e-7"
  {
    assert Significand(1, -7) == (1, -7) && NatText(1) == "1";
    assert MagnitudeText(1, -7) == ExponentForm("1", -6);
    assert NatText(7) == "7";
    assert ExponentForm("1", -6) == "1e-7";
  }

  /** A negative number is its magnitude's text after a minus sign. */
  lemma NegativeNumberText()
    ensures NumberText(Dec(-25, 1)) == "-2.5"
  {
    assert Significand(25, -1) == (25, -1);
    assert NatText(25) == "25";
    assert MagnitudeText(25, -1) == "2.5";
  }

  /** Several significant digits in the exponent form keep a point after the first. */
  lemma ExponentWithFraction()
    ensures NumberText(Dec(25, 8)) == "2.5e-7"
  {
    assert Significand(25, -8) == (25, -8);
    assert NatText(25) == "25";
    assert MagnitudeText(25, -8) == ExponentForm("25", -6);
    FractionExponentForm();
  }

  /** The exponent form puts the point after the first significant digit. */
  lemma FractionExponentForm()
    ensures ExponentForm("25", -6) == "2.5e-7"
  {
    assert NatText(7) == "7";
    var digits := "25";
    assert digits[..1] == "2" && digits[1..] == "5";
    assert ExponentForm(digits, -6) == "2" + "." + "5" + "e" + ("-" + "7");
  }

  /** `String(v)`, which is also what a template literal `${v}` produces. */
  function ToText(v: Value): string
    decreases v
  {
    match v
    case Undefined => "undefined"
    case Null => "null"
    case Bool(b) => if b then "true" else "false"
    case Num(n) => NumberText(n)
    case Str(s) => s
    case Int(i) => IntText(i)
    case Arr(items) =>
      JoinTexts(seq(|items|, k requires 0 <= k < |items| =>
        if items[k].Undefined? || items[k].Null? then "" else ToText(items[k])))
    case Obj(_) => "[object Object]"
  }

  /** `Array.prototype.join` with the default "," separator. */
  function JoinTexts(parts: seq<string>): string {
    if |parts| == 0 then ""
    else if |parts| == 1 then parts[0]
    else parts[0] + "," + JoinTexts(parts[1..])
  }

  // ---------------------------------------------------------------------------
  // Objects as property lists
  // ---------------------------------------------------------------------------

  function Keys(p: Props): (ks: seq<string>)
    ensures |ks| == |p|
    ensures forall k :: 0 <= k < |p| ==> ks[k] == p[k].0
  {
    if |p| == 0 then [] else [p[0].0] + Keys(p[1..])
  }

  /** An object never holds two properties with the same key. */
  predicate UniqueKeys(p: Props) {
    forall i, j :: 0 <= i < j < |p| ==> p[i].0 != p[j].0
  }

  /** `obj[key]`: the value under `key`, or undefined. */
  function Get(p: Props, key: string): (v: Value)
    ensures key !in Keys(p) ==> v == Undefined
  {
    if |p| == 0 then Undefined
    else if p[0].0 == key then p[0].1
    else Get(p[1..], key)
  }

  /** `delete obj[key]`: removes the property, keeping the others in order. */
  function Delete(p: Props, key: string): (r: Props)
    ensures forall k :: 0 <= k < |r| ==> r[k].0 != key
    ensures forall x :: x in r <==> x in p && x.0 != key
    ensures |r| <= |p|
  {
    if |p| == 0 then []
    else if p[0].0 == key then Delete(p[1..], key)
    else [p[0]] + Delete(p[1..], key)
  }

  /** `v.key`: reading a property of undefined or null throws a TypeError (`None`); an
      object gives its property, any other value has none of the keys read here. */
  function Member(v: Value, key: string): (r: Option<Value>)
    ensures r.None? <==> v == Undefined || v == Null
    ensures v.Obj? ==> r == Some(Get(v.fields, key))
  {
    match v
    case Undefined => None
    case Null => None
    case Obj(fields) => Some(Get(fields, key))
    case _ => Some(Undefined)
  }

  /** The properties whose keys are not in `drop`, in their order: one pass of a filter. */
  function WithoutKeys(p: Props, drop: seq<string>): (r: Props)
    decreases |p|
  {
    if |p| == 0 then []
    else (if p[0].0 in drop then [] else [p[0]]) + WithoutKeys(p[1..], drop)
  }

  /** Dropping no key keeps the object as it is. */
  lemma {:induction false} WithoutNoKeys(p: Props)
    ensures WithoutKeys(p, []) == p
    decreases |p|
  {
    if |p| > 0 {
      WithoutNoKeys(p[1..]);
    }
  }

  /** Through the filter a dropped key reads undefined and any other key as before. */
  lemma {:induction false} GetWithoutKeys(p: Props, drop: seq<string>, key: string)
    ensures Get(WithoutKeys(p, drop), key) == if key in drop then Undefined else Get(p, key)
    decreases |p|
  {
    if |p| > 0 {
      GetWithoutKeys(p[1..], drop, key);
      var rest := WithoutKeys(p[1..], drop);
      if p[0].0 !in drop {
        var q := [p[0]] + rest;
        assert WithoutKeys(p, drop) == q;
        assert q[0] == p[0] && q[1..] == rest;
      } else {
        assert WithoutKeys(p, drop) == rest;
      }
    }
  }

  /** Each `delete` after the others extends the filter by one key, so a run of deletes keeps
      the other properties in their order. */
  lemma {:induction false} DeleteWithoutKeys(p: Props, drop: seq<string>, key: string)
    ensures Delete(WithoutKeys(p, drop), key) == WithoutKeys(p, drop + [key])
    decreases |p|
  {
    if |p| > 0 {
      var d := drop + [key];
      var x := p[0];
      var rest := WithoutKeys(p[1..], drop);
      DeleteWithoutKeys(p[1..], drop, key);
      assert x.0 in d <==> x.0 in drop || x.0 == key;
      if x.0 in drop {
        assert WithoutKeys(p, drop) == rest;
        assert WithoutKeys(p, d) == WithoutKeys(p[1..], d);
      } else {
        var q := [x] + rest;
        assert WithoutKeys(p, drop) == q;
        assert q[0] == x && q[1..] == rest;
        if x.0 == key {
          assert Delete(q, key) == Delete(rest, key);
          assert WithoutKeys(p, d) == WithoutKeys(p[1..], d);
        } else {
          assert Delete(q, key) == [x] + Delete(rest, key);
          assert WithoutKeys(p, d) == [x] + WithoutKeys(p[1..], d);
        }
      }
    }
  }

  /** `{...obj, [key]: v}`: an existing property keeps its place and takes the new value,
      a new one is added last. */
  function Put(p: Props, key: string, v: Value): (r: Props)
    ensures |r| == if key in Keys(p) then |p| else |p| + 1
  {
    if |p| == 0 then [(key, v)]
    else if p[0].0 == key then [(key, v)] + p[1..]
    else [p[0]] + Put(p[1..], key, v)
  }

  /** No property of `p` has the key. */
  predicate Avoids(p: Props, key: string) {
    forall k :: 0 <= k < |p| ==> p[k].0 != key
  }

  /** A key the object does not have is added as its last property. */
  lemma {:induction false} PutNew(p: Props, key: string, v: Value)
    requires Avoids(p, key)
    ensures Put(p, key, v) == p + [(key, v)]
  {
    if |p| > 0 {
      PutNew(p[1..], key, v);
      assert p == [p[0]] + p[1..];
    }
  }

  /** Properties in front that lack the key do not change what it reads. */
  lemma {:induction false} GetAppend(p: Props, q: Props, key: string)
    requires Avoids(p, key)
    ensures Get(p + q, key) == Get(q, key)
  {
    if |p| > 0 {
      assert (p + q)[1..] == p[1..] + q;
      GetAppend(p[1..], q, key);
    } else {
      assert p + q == q;
    }
  }

  /** Putting a key keeps every earlier key in its place; a new key goes last. */
  lemma {:induction false} PutKeepsKeys(p: Props, key: string, v: Value)
    ensures Keys(Put(p, key, v)) == if key in Keys(p) then Keys(p) else Keys(p) + [key]
  {
    if |p| > 0 {
      assert Keys(p) == [p[0].0] + Keys(p[1..]);
      if p[0].0 != key {
        PutKeepsKeys(p[1..], key, v);
      } else {
        assert Keys([(key, v)] + p[1..]) == [key] + Keys(p[1..]);
      }
    }
  }

  /** Spreading a value in keeps every other property and makes `key` read back as `v`. */
  lemma {:induction false} GetPut(p: Props, key: string, v: Value, other: string)
    ensures Get(Put(p, key, v), key) == v
    ensures other != key ==> Get(Put(p, key, v), other) == Get(p, other)
  {
    if |p| > 0 && p[0].0 != key {
      GetPut(p[1..], key, v, other);
    }
  }

  /** After a delete the key reads back as undefined and every other key is unchanged. */
  lemma {:induction false} GetDelete(p: Props, key: string, other: string)
    ensures Get(Delete(p, key), key) == Undefined
    ensures other != key ==> Get(Delete(p, key), other) == Get(p, other)
  {
    if |p| > 0 {
      GetDelete(p[1..], key, other);
    }
  }

  // ---------------------------------------------------------------------------
  // `[...new Set(xs)]`
  // ---------------------------------------------------------------------------

  /** `[...new Set(xs)]`: each value once, at its first occurrence. */
  function Distinct<T(==,!new)>(xs: seq<T>): (d: seq<T>)
    ensures forall x :: x in d <==> x in xs
    decreases |xs|
  {
    if |xs| == 0 then []
    else
      var d := Distinct(xs[..|xs| - 1]);
      assert forall x :: x in xs <==> x in xs[..|xs| - 1] || x == xs[|xs| - 1];
      if xs[|xs| - 1] in d then d else d + [xs[|xs| - 1]]
  }

  /** No value appears twice. */
  predicate NoDuplicates<T(==)>(d: seq<T>) {
    forall i, j :: 0 <= i < j < |d| ==> d[i] != d[j]
  }

  /** Where a value first occurs. */
  function FirstOccurrence<T(==)>(xs: seq<T>, x: T): (k: nat)
    requires x in xs
    ensures k < |xs| && xs[k] == x
    ensures forall i :: 0 <= i < k ==> xs[i] != x
  {
    if xs[0] == x then 0 else 1 + FirstOccurrence(xs[1..], x)
  }

  /** A value's first occurrence in a prefix that holds it is its first occurrence. */
  lemma FirstOccurrenceInPrefix<T>(xs: seq<T>, m: nat, x: T)
    requires m <= |xs| && x in xs[..m]
    ensures x in xs && FirstOccurrence(xs, x) == FirstOccurrence(xs[..m], x) < m
  {
    var k := FirstOccurrence(xs[..m], x);
    var k' := FirstOccurrence(xs, x);
    assert xs[k] == x;
    assert xs[..m][k'] == x;
  }

  /** The distinct values hold no duplicates. */
  lemma {:induction false} DistinctNoDuplicates<T(!new)>(xs: seq<T>)
    ensures NoDuplicates(Distinct(xs))
    decreases |xs|
  {
    if |xs| > 0 {
      DistinctNoDuplicates(xs[..|xs| - 1]);
    }
  }

  /** The distinct values keep the order of their first occurrences. */
  lemma {:induction false} DistinctInOrder<T(!new)>(xs: seq<T>)
    ensures forall i, j :: 0 <= i < j < |Distinct(xs)| ==>
      FirstOccurrence(xs, Distinct(xs)[i]) < FirstOccurrence(xs, Distinct(xs)[j])
    decreases |xs|
  {
    if |xs| > 0 {
      var n := |xs| - 1;
      var init := xs[..n];
      var d0 := Distinct(init);
      DistinctInOrder(init);
      forall i | 0 <= i < |d0|
        ensures d0[i] in init && d0[i] in xs && FirstOccurrence(xs, d0[i]) == FirstOccurrence(init, d0[i]) < n
      {
        assert d0[i] in d0;
        FirstOccurrenceInPrefix(xs, n, d0[i]);
      }
      if xs[n] !in d0 {
        assert forall k :: 0 <= k < n ==> xs[k] == init[k];
        assert FirstOccurrence(xs, xs[n]) == n;
      }
    }
  }
}
