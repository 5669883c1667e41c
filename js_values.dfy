/** The JavaScript coercions the front end and the simulator apply to loosely
    typed values: truthiness, `String(v)`, `Number(s)`, `parseInt(s, 10)`,
    `n.toString()` and `toLowerCase()`. Numbers are integers here; a JavaScript
    NaN is `None` wherever a coercion can produce one. */
module JsValues {
  import opened Wrappers

  /** A field of a Convex document typed `unknown`. */
  datatype JsValue = JsNull | JsUndefined | JsBool(b: bool) | JsNum(n: int) | JsString(s: string)

  /** JavaScript truthiness: null, undefined, false, 0 and "" are falsy.
      A string is truthy when it is not empty; any other value when `Number`
      makes it a number other than 0 (NaN is falsy). */
  function Truthy(v: JsValue): (r: bool)
    ensures !r <==> v in {JsNull, JsUndefined, JsBool(false), JsNum(0), JsString("")}
    ensures v.JsString? ==> (r <==> |v.s| > 0)
    ensures !v.JsString? ==> (r <==> ToNumber(v).Some? && ToNumber(v).value != 0)
  {
    match v
    case JsNull => false
    case JsUndefined => false
    case JsBool(b) => b
    case JsNum(n) => n != 0
    case JsString(s) => s != ""
  }

  predicate IsDigit(c: char) { '0' <= c <= '9' }

  predicate AllDigits(s: string) { forall i :: 0 <= i < |s| ==> IsDigit(s[i]) }

  function DigitValue(c: char): (d: nat)
    requires IsDigit(c)
    ensures d < 10
  {
    (c as int) - ('0' as int)
  }

  function DigitChar(d: nat): (c: char)
    requires d < 10
    ensures IsDigit(c) && DigitValue(c) == d
  {
    (('0' as int) + d) as char
  }

  /** The value of a string of decimal digits, most significant first. */
  function DigitsValue(s: string): nat
    requires AllDigits(s)
  {
    if s == [] then 0 else DigitsValue(s[..|s| - 1]) * 10 + DigitValue(s[|s| - 1])
  }

  /** The decimal text of a natural number, as `toString()` writes it: digits
      only, never empty, and no leading zero except for "0" itself. */
  function NatToString(n: nat): (s: string)
    ensures |s| > 0 && AllDigits(s)
    ensures s[0] == '0' ==> n == 0 && s == "0"
  {
    if n < 10 then [DigitChar(n)] else NatToString(n / 10) + [DigitChar(n % 10)]
  }

  /** `n.toString()` for an integer. */
  function IntToString(n: int): (s: string)
    ensures |s| > 0
  {
    if n < 0 then "-" + NatToString(-n) else NatToString(n)
  }

  /** `Number.prototype.toString` extended to NaN (`None`). */
  function NumToString(n: Option<int>): string {
    match n
    case Some(v) => IntToString(v)
    case None => "NaN"
  }

  /** `String(v)`: a string is itself, a number is written so that `Number`
      reads it back, null and undefined are named, and only the empty string
      gives the empty string. */
  function ToJsString(v: JsValue): (r: string)
    ensures v.JsString? ==> r == v.s
    ensures v.JsNum? ==> StringToNumber(r) == Some(v.n)
    ensures v == JsNull ==> r == "null"
    ensures v == JsUndefined ==> r == "undefined"
    ensures r == "" <==> v == JsString("")
  {
    match v
    case JsNull => "null"
    case JsUndefined => "undefined"
    case JsBool(b) => if b then "true" else "false"
    case JsNum(n) => NumberOfToString(n); IntToString(n)
    case JsString(s) => s
  }

  /** The ASCII white-space characters JavaScript trims. */
  predicate IsSpace(c: char) {
    c == ' ' || c == '\t' || c == '\n' || c == '\r' || c == '\U{B}' || c == '\U{C}'
  }

  function TrimStart(s: string): (r: string)
    ensures |r| <= |s| && r == s[|s| - |r|..]
    ensures |r| > 0 ==> !IsSpace(r[0])
  {
    if |s| > 0 && IsSpace(s[0]) then TrimStart(s[1..]) else s
  }

  function TrimEnd(s: string): (r: string)
    ensures |r| <= |s| && r == s[..|r|]
    ensures |r| > 0 ==> !IsSpace(r[|r| - 1])
  {
    if |s| > 0 && IsSpace(s[|s| - 1]) then TrimEnd(s[..|s| - 1]) else s
  }

  /** An optional sign followed by one or more digits and nothing else. */
  function SignedDecimal(s: string): Option<int> {
    if |s| > 0 && (s[0] == '-' || s[0] == '+') then
      if |s| > 1 && AllDigits(s[1..]) then
        var v: int := DigitsValue(s[1..]);
        Some(if s[0] == '-' then -v else v)
      else None
    else if |s| > 0 && AllDigits(s) then Some(DigitsValue(s))
    else None
  }

  /** `Number(s)` for a string: white space around the text is ignored, an
      empty or all-blank string is 0, anything that is not a signed decimal
      integer is NaN. */
  function StringToNumber(s: string): (r: Option<int>)
    ensures (forall i :: 0 <= i < |s| ==> IsSpace(s[i])) ==> r == Some(0)
    ensures s != "" && AllDigits(s) ==> r == Some(DigitsValue(s))
  {
    DigitsReadAsNumber(s);
    BlankReadsAsEmpty(s);
    var t := TrimEnd(TrimStart(s));
    if t == "" then Some(0) else SignedDecimal(t)
  }

  /** Trimming a string of white space only leaves nothing. */
  lemma {:induction false} BlankReadsAsEmpty(s: string)
    ensures (forall i :: 0 <= i < |s| ==> IsSpace(s[i])) ==> TrimStart(s) == ""
  {
    if |s| > 0 && IsSpace(s[0]) {
      BlankReadsAsEmpty(s[1..]);
      assert (forall i :: 0 <= i < |s| ==> IsSpace(s[i])) ==> (forall i :: 0 <= i < |s[1..]| ==> IsSpace(s[1..][i]));
    }
  }

  /** A non-empty run of digits has no white space to trim and no sign. */
  lemma DigitsReadAsNumber(s: string)
    ensures s != "" && AllDigits(s) ==> TrimEnd(TrimStart(s)) == s && SignedDecimal(s) == Some(DigitsValue(s))
  {
    if s != "" && AllDigits(s) {
      assert TrimStart(s) == s by { assert IsDigit(s[0]); }
      assert TrimEnd(s) == s by { assert IsDigit(s[|s| - 1]); }
      assert SignedDecimal(s) == Some(DigitsValue(s)) by { assert IsDigit(s[0]); }
    }
  }

  /** `Number(v)` for any value: null and false are 0, true is 1, undefined
      is NaN, a string is read as above. */
  function ToNumber(v: JsValue): (r: Option<int>)
    ensures v == JsUndefined ==> r.None?
    ensures v.JsNum? ==> r == Some(v.n)
    ensures v.JsString? ==> r == StringToNumber(v.s)
    ensures v == JsNull || v == JsBool(false) ==> r == Some(0)
  {
    match v
    case JsNull => Some(0)
    case JsUndefined => None
    case JsBool(b) => Some(if b then 1 else 0)
    case JsNum(n) => Some(n)
    case JsString(s) => StringToNumber(s)
  }

  /** The longest prefix of `s` made of digits. */
  function LeadingDigits(s: string): (d: string)
    ensures AllDigits(d) && |d| <= |s| && d == s[..|d|]
    ensures |d| < |s| ==> !IsDigit(s[|d|])
  {
    if |s| > 0 && IsDigit(s[0]) then [s[0]] + LeadingDigits(s[1..]) else []
  }

  /** `parseInt(s, 10)`: leading white space, an optional sign, then as many
      digits as there are; text after the digits is ignored; no digit at all
      gives NaN. */
  function ParseInt(s: string): (r: Option<int>)
    ensures s == "" ==> r.None?
  {
    var t := TrimStart(s);
    var negative := |t| > 0 && t[0] == '-';
    var body := if |t| > 0 && (t[0] == '-' || t[0] == '+') then t[1..] else t;
    var d := LeadingDigits(body);
    if d == [] then None
    else
      var v: int := DigitsValue(d);
      Some(if negative then -v else v)
  }

  /** ASCII `toLowerCase` of one character. */
  function LowerChar(c: char): char {
    if 'A' <= c <= 'Z' then ((c as int) + 32) as char else c
  }

  /** `toLowerCase()` on ASCII letters: no upper-case letter is left, every
      upper-case letter becomes its lower-case partner 32 code points on,
      and every other character is kept. */
  function ToLowerCase(s: string): (r: string)
    ensures |r| == |s|
    ensures forall i :: 0 <= i < |r| ==> !('A' <= r[i] <= 'Z')
    ensures forall i :: 0 <= i < |s| && 'A' <= s[i] <= 'Z' ==> r[i] as int == s[i] as int + 32
    ensures forall i :: 0 <= i < |s| && !('A' <= s[i] <= 'Z') ==> r[i] == s[i]
  {
    seq(|s|, i requires 0 <= i < |s| => LowerChar(s[i]))
  }

  /** Lower-casing twice is lower-casing once. */
  lemma ToLowerCaseIdempotent(s: string)
    ensures ToLowerCase(ToLowerCase(s)) == ToLowerCase(s)
  {
  }

  // ---- round trips between toString and the two parsers ----

  lemma {:induction false} NatToStringValue(n: nat)
    ensures DigitsValue(NatToString(n)) == n
  {
    if n >= 10 {
      var s := NatToString(n);
      assert s[..|s| - 1] == NatToString(n / 10);
      NatToStringValue(n / 10);
    }
  }

  lemma {:induction false} LeadingDigitsOfDigits(s: string)
    requires AllDigits(s)
    ensures LeadingDigits(s) == s
  {
    if |s| > 0 {
      LeadingDigitsOfDigits(s[1..]);
    }
  }

  /** `parseInt` reads a text of digits only as its decimal value. */
  lemma ParseIntOfDigits(s: string)
    requires s != "" && AllDigits(s)
    ensures ParseInt(s) == Some(DigitsValue(s))
  {
    assert TrimStart(s) == s && s[0] != '-' && s[0] != '+' by { assert IsDigit(s[0]); }
    LeadingDigitsOfDigits(s);
  }

  /** What `toString()` writes, `Number()` reads back. */
  lemma NumberOfToString(n: int)
    ensures StringToNumber(IntToString(n)) == Some(n)
  {
    var s := IntToString(n);
    var digits := NatToString(if n < 0 then -n else n);
    NatToStringValue(if n < 0 then -n else n);
    assert !IsSpace(s[0]) && !IsSpace(s[|s| - 1]);
    assert TrimStart(s) == s;
    assert TrimEnd(s) == s;
    if n < 0 {
      assert s[1..] == digits;
    }
  }

  /** `parseInt` reads the decimal text of a natural number back. */
  lemma ParseIntOfNatText(n: nat)
    ensures ParseInt(NatToString(n)) == Some(n)
  {
    var s := NatToString(n);
    assert IsDigit(s[0]);
    assert TrimStart(s) == s;
    assert s[0] != '-' && s[0] != '+';
    LeadingDigitsOfDigits(s);
    NatToStringValue(n);
  }

  /** `parseInt` reads a minus sign followed by the decimal text of a
      natural number as its negation. */
  lemma ParseIntOfNegatedText(n: nat)
    ensures ParseInt("-" + NatToString(n)) == Some(-(n as int))
  {
    var digits := NatToString(n);
    var s := "-" + digits;
    assert !IsSpace(s[0]);
    assert TrimStart(s) == s;
    NatToStringValue(n);
    LeadingDigitsOfDigits(digits);
    assert s[0] == '-' && s[1..] == digits;
  }

  /** What `toString()` writes, `parseInt(_, 10)` reads back. */
  lemma ParseIntOfToString(n: int)
    ensures ParseInt(IntToString(n)) == Some(n)
  {
    if n < 0 {
      ParseIntOfNegatedText(-n);
    } else {
      ParseIntOfNatText(n);
    }
  }

  /** `parseInt` stops at the first non-digit: "12abc" is 12, where `Number`
      gives NaN. */
  lemma ParseIntIgnoresTrailingText()
    ensures ParseInt("12abc") == Some(12)
    ensures StringToNumber("12abc") == None
  {
    var s := "12abc";
    assert !IsSpace(s[0]) && !IsSpace(s[4]);
    assert TrimStart(s) == s;
    assert TrimEnd(s) == s;
    assert !IsDigit(s[2]);
    assert LeadingDigits(s[2..]) == [];
    assert LeadingDigits(s[1..]) == [s[1]];
    assert LeadingDigits(s) == [s[0], s[1]];
    var d := [s[0], s[1]];
    assert d[..1] == [s[0]] && [s[0]][..0] == [];
    assert DigitValue(s[0]) == 1 && DigitValue(s[1]) == 2;
    assert DigitsValue([s[0]]) == 1;
    assert DigitsValue(d) == 12;
  }
}
