/** The few pieces of JavaScript string and value semantics the storefront
    relies on: `trim`, `toLowerCase`, `includes`, `parseInt`, `String(n)` and
    the dynamic values stored in a product's specification map. */
module JsText {
  import opened Wrappers

  /** A value read from a loosely typed JSON column. */
  datatype JsValue = JNull | JUndefined | JString(s: string) | JNumber(n: int) | JBool(b: bool)

  /** The white-space and line-terminator characters `String.prototype.trim`
      and `parseInt` skip (sections 12.2 and 12.3 of ECMA-262): tab, vertical
      tab, form feed, the byte order mark, every space separator of the
      Unicode category Zs (U+0020, U+00A0, U+1680, U+2000 to U+200A, U+202F,
      U+205F, U+3000), line feed, carriage return, LS and PS. */
  predicate IsSpace(c: char) {
    c == '\t' || c == '\U{000B}' || c == '\U{000C}' || c == '\U{FEFF}'
    || c == ' ' || c == '\U{00A0}' || c == '\U{1680}' || '\U{2000}' <= c <= '\U{200A}'
    || c == '\U{202F}' || c == '\U{205F}' || c == '\U{3000}'
    || c == '\n' || c == '\r' || c == '\U{2028}' || c == '\U{2029}'
  }

  /** A string that `trim` turns into "" (JavaScript: `!s.trim()`). */
  predicate Blank(s: string) {
    forall i :: 0 <= i < |s| ==> IsSpace(s[i])
  }

  function TrimStart(s: string): string {
    if s != [] && IsSpace(s[0]) then TrimStart(s[1..]) else s
  }

  function TrimEnd(s: string): string {
    if s != [] && IsSpace(s[|s| - 1]) then TrimEnd(s[..|s| - 1]) else s
  }

  function Trim(s: string): string {
    TrimEnd(TrimStart(s))
  }

  lemma {:induction false} TrimStartShape(s: string)
    ensures var t := TrimStart(s);
      |t| <= |s| && t == s[|s| - |t|..] && Blank(s[..|s| - |t|])
      && (t != [] ==> !IsSpace(t[0]))
  {
    if s != [] && IsSpace(s[0]) {
      TrimStartShape(s[1..]);
      var t := TrimStart(s[1..]);
      assert s[1..][..|s| - 1 - |t|] == s[1..|s| - |t|];
      assert forall i :: 1 <= i < |s| - |t| ==> s[i] == s[1..][..|s| - 1 - |t|][i - 1];
    }
  }

  lemma {:induction false} TrimEndShape(s: string)
    ensures var t := TrimEnd(s);
      |t| <= |s| && t == s[..|t|] && Blank(s[|t|..])
      && (t != [] ==> !IsSpace(t[|t| - 1]))
  {
    if s != [] && IsSpace(s[|s| - 1]) {
      TrimEndShape(s[..|s| - 1]);
      var t := TrimEnd(s[..|s| - 1]);
      assert forall i :: |t| <= i < |s| - 1 ==> s[i] == s[..|s| - 1][i];
    }
  }

  /** `s.trim()` is empty exactly when every character of `s` is white space. */
  lemma TrimEmptyIffBlank(s: string)
    ensures Trim(s) == "" <==> Blank(s)
  {
    TrimStartShape(s);
    var t := TrimStart(s);
    TrimEndShape(t);
    if Trim(s) == "" {
      assert Blank(t);
      assert t == [];
      assert s[..|s|] == s;
    } else {
      var r := Trim(s);
      assert r[0] == t[0];
      assert t[0] == s[|s| - |t|];
    }
  }

  /** `s.trim()` starts and ends with a non-space character and is a
      contiguous piece of `s`. */
  lemma TrimShape(s: string)
    ensures var r := Trim(s);
      |r| <= |s| && (r != [] ==> !IsSpace(r[0]) && !IsSpace(r[|r| - 1]))
      && Includes(s, r)
  {
    TrimStartShape(s);
    var t := TrimStart(s);
    TrimEndShape(t);
    var r := Trim(s);
    var k := |s| - |t|;
    assert s[k..k + |r|] == t[..|r|];
    assert OccursAt(s, r, k);
  }

  /** `toLowerCase` on the capitals of the Basic Latin, Latin-1 and basic
      Cyrillic blocks: A to Z, À to Þ except the multiplication sign, Ѐ to Џ
      (Ё, Є, І, Ї, Ў, Ђ, ...) and А to Я. Every other character is left as
      it is. */
  function LowerChar(c: char): char {
    if 'A' <= c <= 'Z' then (c as int + 32) as char
    else if '\U{00C0}' <= c <= '\U{00DE}' && c != '\U{00D7}' then (c as int + 32) as char
    else if '\U{0400}' <= c <= '\U{040F}' then (c as int + 80) as char
    else if '\U{0410}' <= c <= '\U{042F}' then (c as int + 32) as char
    else c
  }

  function ToLower(s: string): (r: string)
    ensures |r| == |s|
    ensures forall i :: 0 <= i < |s| ==> r[i] == LowerChar(s[i])
  {
    if s == [] then [] else [LowerChar(s[0])] + ToLower(s[1..])
  }

  /** `s.includes(q)`: `q` occurs as a contiguous piece of `s`
      (the empty string occurs in every string). */
  predicate Includes(s: string, q: string) {
    exists k :: 0 <= k <= |s| && OccursAt(s, q, k)
  }

  /** `q` occurs in `s` starting at position `k`. */
  predicate OccursAt(s: string, q: string, k: nat) {
    k + |q| <= |s| && s[k..k + |q|] == q
  }

  /** Case-insensitive containment as the admin pages write it:
      `s.toLowerCase().includes(q.toLowerCase())`. */
  predicate IncludesIgnoringCase(s: string, q: string) {
    Includes(ToLower(s), ToLower(q))
  }

  lemma EmptyIncludedEverywhere(s: string)
    ensures Includes(s, "")
  {
    assert OccursAt(s, "", 0);
  }

  // ---------- parseInt and String(n), for integers ----------

  predicate IsDigit(c: char) { '0' <= c <= '9' }

  function DigitValue(c: char): nat
    requires IsDigit(c)
  {
    c as int - '0' as int
  }

  function DigitChar(d: nat): char
    requires d < 10
  {
    ('0' as int + d) as char
  }

  /** The longest prefix of `s` made of decimal digits. */
  function LeadingDigits(s: string): (d: string)
    ensures |d| <= |s| && d == s[..|d|]
    ensures forall i :: 0 <= i < |d| ==> IsDigit(d[i])
    ensures |d| < |s| ==> !IsDigit(s[|d|])
  {
    if s != [] && IsDigit(s[0]) then [s[0]] + LeadingDigits(s[1..]) else []
  }

  function DigitsValue(d: string): nat
    requires forall i :: 0 <= i < |d| ==> IsDigit(d[i])
  {
    if d == [] then 0 else DigitsValue(d[..|d| - 1]) * 10 + DigitValue(d[|d| - 1])
  }

  /** `parseInt(s)` with the default radix on decimal text: leading white
      space, an optional sign, then as many digits as there are; `None`
      stands for `NaN` (no digit at all). */
  function ParseInt(s: string): Option<int> {
    var t := TrimStart(s);
    var negative := t != [] && t[0] == '-';
    var body := if t != [] && (t[0] == '-' || t[0] == '+') then t[1..] else t;
    var d := LeadingDigits(body);
    var v: int := if d == [] then 0 else DigitsValue(d);
    if d == [] then None
    else if negative then Some(-v)
    else Some(v)
  }

  /** Decimal text of a natural number, as `String(n)` writes it. */
  function NatToString(n: nat): (r: string)
    ensures r != [] && forall i :: 0 <= i < |r| ==> IsDigit(r[i])
  {
    if n < 10 then [DigitChar(n)] else NatToString(n / 10) + [DigitChar(n % 10)]
  }

  /** `String(n)` for an integer-valued number. */
  function IntToString(n: int): string {
    if n < 0 then "-" + NatToString(-n) else NatToString(n)
  }

  lemma {:induction false} NatToStringValue(n: nat)
    ensures DigitsValue(NatToString(n)) == n
  {
    if n >= 10 {
      NatToStringValue(n / 10);
      var r := NatToString(n);
      assert r[..|r| - 1] == NatToString(n / 10);
    }
  }

  lemma {:induction false} LeadingDigitsOfDigits(d: string)
    requires forall i :: 0 <= i < |d| ==> IsDigit(d[i])
    ensures LeadingDigits(d) == d
  {
    if d != [] {
      LeadingDigitsOfDigits(d[1..]);
    }
  }

  /** Reading back what `String(n)` wrote gives `n` again. */
  lemma ParseIntOfIntToString(n: int)
    ensures ParseInt(IntToString(n)) == Some(n)
  {
    var m: nat := if n < 0 then -n else n;
    var digits := NatToString(m);
    LeadingDigitsOfDigits(digits);
    NatToStringValue(m);
    var s := IntToString(n);
    assert !IsSpace(s[0]);
    assert TrimStart(s) == s;
    if n < 0 {
      assert s[0] == '-' && s[1..] == digits;
    } else {
      assert s == digits && IsDigit(s[0]);
    }
  }

  /** `String(v)` for the non-null values of a specification map;
      `null` and `undefined` become "" the way the product form writes it. */
  function SpecText(v: JsValue): string {
    match v
    case JNull => ""
    case JUndefined => ""
    case JString(s) => s
    case JNumber(n) => IntToString(n)
    case JBool(b) => if b then "true" else "false"
  }
}
