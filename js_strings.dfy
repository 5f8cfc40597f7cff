/**
 * The few JavaScript string operations the console relies on: `split` on a
 * one-character separator, `indexOf`/`includes` of a substring, decimal text
 * of integers and the global `parseInt` (radix left undefined).
 */
module JsStrings {

  datatype Option<+T> = None | Some(value: T)

  // ---------------------------------------------------------------------------
  // Substring search
  // ---------------------------------------------------------------------------

  /** `sub` occurs in `s` starting at index `i`. */
  predicate OccursAt(s: string, sub: string, i: nat) {
    i + |sub| <= |s| && s[i..i + |sub|] == sub
  }

  /** First index at or after `from` where `sub` occurs. */
  function FindFrom(s: string, sub: string, from: nat): (r: Option<nat>)
    decreases |s| - from
    ensures r.Some? ==> from <= r.value && OccursAt(s, sub, r.value)
    ensures r.Some? ==> forall j :: from <= j < r.value ==> !OccursAt(s, sub, j)
    ensures r.None? ==> forall j :: from <= j ==> !OccursAt(s, sub, j)
  {
    if from + |sub| > |s| then None
    else if s[from..from + |sub|] == sub then Some(from)
    else FindFrom(s, sub, from + 1)
  }

  /** `s.indexOf(sub)`, with -1 written as None. */
  function IndexOf(s: string, sub: string): Option<nat> {
    FindFrom(s, sub, 0)
  }

  /** `s.includes(sub)`. */
  predicate Includes(s: string, sub: string) {
    IndexOf(s, sub).Some?
  }

  lemma IncludesIffOccurs(s: string, sub: string)
    ensures Includes(s, sub) <==> exists i: nat :: OccursAt(s, sub, i)
  {
    var r := IndexOf(s, sub);
    if r.Some? {
      assert OccursAt(s, sub, r.value);
    }
  }

  /** `s.split(sep)[0]`: the text before the first occurrence of `sep`, or all of `s`. */
  function BeforeFirst(s: string, sep: string): (r: string)
    ensures IndexOf(s, sep).None? ==> r == s
    ensures IndexOf(s, sep).Some? ==> |r| + |sep| <= |s| && s == r + sep + s[|r| + |sep|..]
  {
    match IndexOf(s, sep)
    case None => s
    case Some(i) => s[..i]
  }

  /** The prefix `s.split(sep)[0]` never contains the separator, when the separator is not empty. */
  lemma BeforeFirstHasNoSeparator(s: string, sep: string)
    requires sep != []
    ensures !Includes(BeforeFirst(s, sep), sep)
  {
    var r := BeforeFirst(s, sep);
    if IndexOf(s, sep).Some? {
      var i := IndexOf(s, sep).value;
      assert r == s[..i];
      forall j: nat ensures !OccursAt(r, sep, j) {
        if OccursAt(r, sep, j) {
          assert r[j..j + |sep|] == s[j..j + |sep|];
          assert OccursAt(s, sep, j) && j < i;
          assert false;
        }
      }
    }
    IncludesIffOccurs(r, sep);
  }

  // ---------------------------------------------------------------------------
  // split on a one-character separator
  // ---------------------------------------------------------------------------

  /** `s.split(c)` for a one-character separator: every piece, in order; an empty string gives [""] */
  function Split(s: string, c: char): (r: seq<string>)
    decreases |s|
    ensures |r| >= 1
    ensures forall k :: 0 <= k < |r| ==> c !in r[k]
  {
    if c !in s then [s]
    else
      var i := FirstIndex(s, c);
      [s[..i]] + Split(s[i + 1..], c)
  }

  function FirstIndex(s: string, c: char): (i: nat)
    requires c in s
    ensures i < |s| && s[i] == c && c !in s[..i]
  {
    if s[0] == c then 0 else 1 + FirstIndex(s[1..], c)
  }

  /** Pieces joined back with the separator. */
  function Join(pieces: seq<string>, c: char): string
    requires |pieces| >= 1
  {
    if |pieces| == 1 then pieces[0] else pieces[0] + [c] + Join(pieces[1..], c)
  }

  /** Splitting and joining again gives the original text back. */
  lemma {:induction false} JoinSplit(s: string, c: char)
    ensures Join(Split(s, c), c) == s
    decreases |s|
  {
    if c in s {
      var i := FirstIndex(s, c);
      JoinSplit(s[i + 1..], c);
      assert s == s[..i] + [c] + s[i + 1..];
    }
  }

  /** `s.split(c)[k]`: None stands for JavaScript's `undefined` past the last piece. */
  function Piece(s: string, c: char, k: nat): Option<string> {
    var pieces := Split(s, c);
    if k < |pieces| then Some(pieces[k]) else None
  }

  // ---------------------------------------------------------------------------
  // Decimal text
  // ---------------------------------------------------------------------------

  function DigitChar(d: nat): (c: char)
    requires d < 10
    ensures '0' <= c <= '9' && c as int - '0' as int == d
  {
    ('0' as int + d) as char
  }

  /** Decimal digits of a natural number, no leading zeros ("0" for zero). */
  function NatText(n: nat): (r: string)
    ensures |r| >= 1
    ensures forall k :: 0 <= k < |r| ==> '0' <= r[k] <= '9'
  {
    if n < 10 then [DigitChar(n)] else NatText(n / 10) + [DigitChar(n % 10)]
  }

  /** Decimal text of an integer, with a leading '-' for negatives. */
  function IntText(i: int): string {
    if i < 0 then "-" + NatText(-i) else NatText(i)
  }

  // ---------------------------------------------------------------------------
  // parseInt(s) with the radix left undefined
  // ---------------------------------------------------------------------------

  /** The white space characters that `parseInt` skips before the number. */
  predicate IsJsSpace(c: char) {
    || c == '\t' || c == '\n' || c == '\r' || c == ' '
    || c == '\U{000B}' || c == '\U{000C}' || c == '\U{00A0}' || c == '\U{1680}'
    || ('\U{2000}' <= c <= '\U{200A}')
    || c == '\U{2028}' || c == '\U{2029}' || c == '\U{202F}' || c == '\U{205F}'
    || c == '\U{3000}' || c == '\U{FEFF}'
  }

  function TrimStart(s: string): (r: string)
    ensures |r| <= |s| && r == s[|s| - |r|..]
    ensures r == [] || !IsJsSpace(r[0])
  {
    if |s| > 0 && IsJsSpace(s[0]) then TrimStart(s[1..]) else s
  }

  /** Value of a digit character in the given radix (10 or 16), or -1 when it is not one. */
  function DigitValue(c: char, radix: nat): (d: int)
    ensures -1 <= d < radix || (radix != 10 && radix != 16 && d == -1)
  {
    if radix != 10 && radix != 16 then -1
    else if '0' <= c <= '9' then c as int - '0' as int
    else if radix == 16 && 'a' <= c <= 'f' then c as int - 'a' as int + 10
    else if radix == 16 && 'A' <= c <= 'F' then c as int - 'A' as int + 10
    else -1
  }

  /** Length of the longest prefix of `s` made of digits of the radix. */
  function DigitRun(s: string, radix: nat): (n: nat)
    ensures n <= |s|
    ensures forall k :: 0 <= k < n ==> DigitValue(s[k], radix) >= 0
    ensures n < |s| ==> DigitValue(s[n], radix) < 0
  {
    if |s| == 0 || DigitValue(s[0], radix) < 0 then 0 else 1 + DigitRun(s[1..], radix)
  }

  /** Value of a string of digits, most significant first. */
  function DigitsValue(s: string, radix: nat): (v: nat)
    requires forall k :: 0 <= k < |s| ==> DigitValue(s[k], radix) >= 0
  {
    if |s| == 0 then 0
    else DigitsValue(s[..|s| - 1], radix) * radix + DigitValue(s[|s| - 1], radix)
  }

  /** `parseInt(s)`: None stands for NaN. Leading white space and one sign are skipped,
      a "0x"/"0X" prefix selects radix 16, and the longest run of digits is read. */
  function ParseInt(s: string): Option<int> {
    var t := TrimStart(s);
    if |t| > 0 && t[0] == '-' then
      match ParseMagnitude(t[1..])
      case None => None
      case Some(m) => var v: int := m; Some(-v)
    else if |t| > 0 && t[0] == '+' then ParseMagnitude(t[1..])
    else ParseMagnitude(t)
  }

  /** The unsigned part of `parseInt`: hexadecimal after "0x"/"0X", decimal otherwise. */
  function ParseMagnitude(u: string): Option<nat> {
    if |u| >= 2 && u[0] == '0' && (u[1] == 'x' || u[1] == 'X') then LeadingDigits(u[2..], 16)
    else LeadingDigits(u, 10)
  }

  /** Value of the longest run of digits at the start of `body`; None when there is none. */
  function LeadingDigits(body: string, radix: nat): Option<nat> {
    var n := DigitRun(body, radix);
    if n == 0 then None else Some(DigitsValue(body[..n], radix))
  }

  /** Reading back the decimal text of a natural number gives the number. */
  lemma {:induction false} DigitsValueOfNatText(n: nat)
    ensures DigitsValue(NatText(n), 10) == n
  {
    var t := NatText(n);
    if n >= 10 {
      var q, r := n / 10, n % 10;
      assert t == NatText(q) + [DigitChar(r)];
      assert t[..|t| - 1] == NatText(q);
      assert DigitValue(t[|t| - 1], 10) == r;
      DigitsValueOfNatText(q);
      assert DigitsValue(t, 10) == q * 10 + r;
    } else {
      assert DigitValue(t[0], 10) == n;
      assert t[..0] == [];
    }
  }

  /** `parseInt` reads the decimal text of a natural number followed by text that starts
      with neither a digit nor an 'x', such as the rest of a version string. */
  lemma ParseIntOfNatText(n: nat, rest: string)
    requires rest == [] || (DigitValue(rest[0], 10) < 0 && rest[0] != 'x' && rest[0] != 'X')
    ensures ParseInt(NatText(n) + rest) == Some(n)
  {
    var t := NatText(n);
    var s := t + rest;
    assert s[0] == t[0];
    UnsignedParse(s);
    assert !(|s| >= 2 && s[0] == '0' && (s[1] == 'x' || s[1] == 'X')) by {
      if |s| >= 2 && s[0] == '0' {
        if n >= 10 {
          LeadingDigitNonZero(n);
        }
        assert |t| == 1 && s[1] == rest[0];
      }
    }
    DigitRunOfDigitsThen(t, rest);
    assert s[..|t|] == t;
    DigitsValueOfNatText(n);
  }

  /** Text that starts with a digit is read without skipping or sign. */
  lemma UnsignedParse(s: string)
    requires |s| > 0 && '0' <= s[0] <= '9'
    ensures ParseInt(s) == ParseMagnitude(s)
  {
    assert !IsJsSpace(s[0]);
    assert TrimStart(s) == s;
  }

  lemma {:induction false} LeadingDigitNonZero(n: nat)
    requires n >= 10
    ensures NatText(n)[0] != '0'
  {
    if n / 10 >= 10 {
      LeadingDigitNonZero(n / 10);
    }
  }

  lemma {:induction false} DigitRunOfDigitsThen(t: string, rest: string)
    requires forall k :: 0 <= k < |t| ==> '0' <= t[k] <= '9'
    requires rest == [] || DigitValue(rest[0], 10) < 0
    ensures DigitRun(t + rest, 10) == |t|
  {
    if |t| > 0 {
      assert (t + rest)[1..] == t[1..] + rest;
      DigitRunOfDigitsThen(t[1..], rest);
    } else {
      assert t + rest == rest;
    }
  }
}
