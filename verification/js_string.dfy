/** The JavaScript string built-ins the screens rely on, as pure functions:
    truthiness of a string that may be missing, `toLowerCase` (ASCII letters
    only), `includes`, `parseInt(_, 10)` and the decimal text of a
    non-negative integer inside a template literal. */
module JsString {

  /** A property that may be `undefined` or `null` (None) or hold a value. */
  datatype Option<T> = None | Some(value: T)

  /** JavaScript truthiness of a string property: present and non-empty. */
  predicate Present(o: Option<string>) {
    o.Some? && o.value != ""
  }

  // ---------------------------------------------------------------------
  // toLowerCase
  // ---------------------------------------------------------------------

  predicate IsUpper(c: char) {
    'A' <= c <= 'Z'
  }

  /** Lower-casing of one character; letters outside ASCII are left alone. */
  function LowerChar(c: char): char {
    if IsUpper(c) then (c as int + 32) as char else c
  }

  /** `s.toLowerCase()`, restricted to ASCII case mapping. */
  function Lower(s: string): (r: string)
    ensures |r| == |s|
    ensures forall i :: 0 <= i < |s| ==> r[i] == LowerChar(s[i])
  {
    if s == [] then [] else [LowerChar(s[0])] + Lower(s[1..])
  }

  lemma LowerAppend(a: string, b: string)
    ensures Lower(a + b) == Lower(a) + Lower(b)
  {
    assert forall i :: 0 <= i < |a + b| ==> Lower(a + b)[i] == (Lower(a) + Lower(b))[i];
  }

  /** Lower-casing twice is lower-casing once, and leaves no upper-case letter. */
  lemma LowerIdempotent(s: string)
    ensures Lower(Lower(s)) == Lower(s)
    ensures forall i :: 0 <= i < |s| ==> !IsUpper(Lower(s)[i])
  {
  }

  // ---------------------------------------------------------------------
  // includes
  // ---------------------------------------------------------------------

  /** `t` occurs in `s` starting at index `i`. */
  ghost predicate OccursAt(s: string, t: string, i: int) {
    0 <= i && i + |t| <= |s| && s[i..i + |t|] == t
  }

  /** `s.includes(t)`, computed by scanning `s` from the left. */
  function Includes(s: string, t: string): bool
    decreases |s|
  {
    if |t| > |s| then false
    else if s[..|t|] == t then true
    else Includes(s[1..], t)
  }

  /** `includes` holds exactly when there is an index where `t` occurs. */
  lemma {:induction false} IncludesIffOccurs(s: string, t: string)
    ensures Includes(s, t) <==> exists i :: OccursAt(s, t, i)
    decreases |s|
  {
    if |t| > |s| {
    } else if s[..|t|] == t {
      assert OccursAt(s, t, 0);
    } else {
      IncludesIffOccurs(s[1..], t);
      if i :| OccursAt(s[1..], t, i) {
        assert s[1..][i..i + |t|] == s[i + 1..i + 1 + |t|];
        assert OccursAt(s, t, i + 1);
      }
      if i :| OccursAt(s, t, i) {
        assert i != 0;
        assert s[1..][i - 1..i - 1 + |t|] == s[i..i + |t|];
        assert OccursAt(s[1..], t, i - 1);
      }
    }
  }

  /** A text includes only strings no longer than itself. */
  lemma IncludesLength(s: string, t: string)
    ensures Includes(s, t) ==> |t| <= |s|
  {
    IncludesIffOccurs(s, t);
  }

  /** Every infix is included; in particular the empty string and `s` itself. */
  lemma IncludesInfix(u: string, t: string, v: string)
    ensures Includes(u + t + v, t)
  {
    var s := u + t + v;
    assert s[|u|..|u| + |t|] == t;
    assert OccursAt(s, t, |u|);
    IncludesIffOccurs(s, t);
  }

  /** The case-insensitive test every screen uses:
      `s.toLowerCase().includes(t.toLowerCase())`. */
  predicate CiIncludes(s: string, t: string) {
    Includes(Lower(s), Lower(t))
  }

  /** A case-insensitive match is a substring match, not an equality:
      any text holding a case variant of `t` matches `t`. */
  lemma CiIncludesInfix(u: string, w: string, v: string, t: string)
    requires Lower(w) == Lower(t)
    ensures CiIncludes(u + w + v, t)
  {
    LowerAppend(u + w, v);
    LowerAppend(u, w);
    IncludesInfix(Lower(u), Lower(t), Lower(v));
  }

  lemma CiIncludesSelf(s: string)
    ensures CiIncludes(s, s)
    ensures CiIncludes(s, "")
  {
    CiIncludesInfix("", s, "", s);
    assert "" + s + "" == s;
    IncludesInfix("", "", Lower(s));
    assert "" + "" + Lower(s) == Lower(s);
  }

  /** A non-empty pattern is never included in a missing or empty text. */
  lemma CiIncludesLength(s: string, t: string)
    ensures CiIncludes(s, t) ==> |t| <= |s|
  {
    IncludesLength(Lower(s), Lower(t));
  }

  // ---------------------------------------------------------------------
  // Decimal digits
  // ---------------------------------------------------------------------

  predicate IsDigit(c: char) {
    '0' <= c <= '9'
  }

  predicate AllDigits(s: string) {
    forall i :: 0 <= i < |s| ==> IsDigit(s[i])
  }

  function DigitValue(c: char): nat
    requires IsDigit(c)
  {
    c as int - '0' as int
  }

  function DigitChar(d: nat): (c: char)
    requires d < 10
    ensures IsDigit(c) && DigitValue(c) == d
  {
    ('0' as int + d) as char
  }

  /** The base-10 value of a digit string, most significant digit first. */
  function DigitsValue(s: string): nat
    requires AllDigits(s)
    decreases |s|
  {
    if s == [] then 0 else 10 * DigitsValue(s[..|s| - 1]) + DigitValue(s[|s| - 1])
  }

  /** The text of a non-negative integer in a template literal, `${n}`. */
  function DecimalString(n: nat): (r: string)
    ensures r != [] && AllDigits(r)
    ensures DigitsValue(r) == n
  {
    if n < 10 then [DigitChar(n)]
    else
      var r := DecimalString(n / 10) + [DigitChar(n % 10)];
      assert r[..|r| - 1] == DecimalString(n / 10);
      r
  }

  // ---------------------------------------------------------------------
  // parseInt(s, 10)
  // ---------------------------------------------------------------------

  /** A JavaScript number as parseInt produces it. */
  datatype Number = Int(value: int) | NaN

  /** The characters parseInt skips at the front: white space and line
      terminators of ECMAScript (tab, VT, FF, BOM, the space separators,
      LF, CR, LS, PS). */
  predicate IsJsWhitespace(c: char) {
    var k := c as int;
    k == 0x09 || k == 0x0A || k == 0x0B || k == 0x0C || k == 0x0D || k == 0x20
    || k == 0xA0 || k == 0x1680 || (0x2000 <= k <= 0x200A) || k == 0x2028 || k == 0x2029
    || k == 0x202F || k == 0x205F || k == 0x3000 || k == 0xFEFF
  }

  function TrimStart(s: string): (r: string)
    ensures r == [] || !IsJsWhitespace(r[0])
    decreases |s|
  {
    if s != [] && IsJsWhitespace(s[0]) then TrimStart(s[1..]) else s
  }

  /** The length of the longest prefix of `s` made of digits. */
  function LeadingDigits(s: string): (k: nat)
    ensures k <= |s| && AllDigits(s[..k])
    ensures k < |s| ==> !IsDigit(s[k])
    decreases |s|
  {
    if s != [] && IsDigit(s[0]) then
      var k := 1 + LeadingDigits(s[1..]);
      assert s[..k] == [s[0]] + s[1..][..k - 1];
      k
    else 0
  }

  /** `parseInt(s, 10)`: skip leading white space, read an optional sign,
      then the longest run of digits; NaN when there is no digit. */
  function ParseInt(s: string): (r: Number)
    ensures s != [] && AllDigits(s) ==> r == Int(DigitsValue(s))
  {
    assert s != [] && IsDigit(s[0]) ==> TrimStart(s) == s;
    var t := TrimStart(s);
    var signed := t != [] && (t[0] == '-' || t[0] == '+');
    var body := if signed then t[1..] else t;
    var k := LeadingDigits(body);
    if k == 0 then NaN
    else if signed && t[0] == '-' then Int(-(DigitsValue(body[..k]) as int))
    else
      assert AllDigits(s) && k == |s| ==> body[..k] == s;
      Int(DigitsValue(body[..k]))
  }

  /** parseInt reads back what `${n}` writes, for either sign. */
  lemma ParseIntDecimal(n: nat)
    ensures ParseInt(DecimalString(n)) == Int(n)
    ensures ParseInt("-" + DecimalString(n)) == Int(-(n as int))
  {
    var d := DecimalString(n);
    var s := "-" + d;
    assert TrimStart(s) == s;
    assert s[1..] == d;
    assert LeadingDigits(d) == |d|;
    assert d[..|d|] == d;
  }

  lemma {:induction false} LeadingDigitsPrefix(d: string, rest: string)
    requires AllDigits(d)
    requires rest == [] || !IsDigit(rest[0])
    ensures LeadingDigits(d + rest) == |d|
    decreases |d|
  {
    if d != [] {
      assert (d + rest)[1..] == d[1..] + rest;
      LeadingDigitsPrefix(d[1..], rest);
    }
  }

  /** parseInt stops at the first character that is not a digit, so a
      number input holding "3.5" or "2e1" yields 3 or 2. */
  lemma ParseIntStopsAtNonDigit(d: string, rest: string)
    requires d != [] && AllDigits(d)
    requires rest == [] || !IsDigit(rest[0])
    ensures ParseInt(d + rest) == Int(DigitsValue(d))
  {
    var s := d + rest;
    assert s[0] == d[0];
    assert TrimStart(s) == s;
    LeadingDigitsPrefix(d, rest);
    assert s[..|d|] == d;
  }
}
