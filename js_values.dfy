/**
 * The part of the JavaScript runtime that the normalisers and the legacy
 * scorers depend on: dynamically typed values, truthiness, `??` and `||`,
 * property reads, template-literal stringification, `Number(...)` coercion
 * and `String.prototype.trim`.
 */
module JsValues {
  import opened Wrappers

  /** A JavaScript value. Numbers are integers: fractions and NaN are not modelled. */
  datatype Raw =
    | Undefined
    | Null
    | Bool(b: bool)
    | Num(n: int)
    | Str(s: string)
    | List(items: seq<Raw>)
    | Obj(fields: map<string, Raw>)

  /** What the runtime throws when a property of `null` or `undefined` is read. */
  datatype Thrown = TypeError

  predicate Nullish(v: Raw) {
    v.Undefined? || v.Null?
  }

  /** `!!v` (NaN is not a value of the model). */
  predicate Truthy(v: Raw) {
    match v
    case Undefined => false
    case Null => false
    case Bool(b) => b
    case Num(n) => n != 0
    case Str(s) => s != ""
    case List(_) => true
    case Obj(_) => true
  }

  /** `v?.key`: own properties of an object; every other value has none of the keys read here. */
  function Prop(v: Raw, key: string): (r: Raw)
    ensures !v.Obj? ==> r == Undefined
    ensures v.Obj? && key in v.fields ==> r == v.fields[key]
  {
    if v.Obj? && key in v.fields then v.fields[key] else Undefined
  }

  /** `a ?? b` */
  function Coalesce(a: Raw, b: Raw): (r: Raw)
    ensures Nullish(a) ==> r == b
    ensures !Nullish(a) ==> r == a
  {
    if Nullish(a) then b else a
  }

  /** `a || b` */
  function OrElse(a: Raw, b: Raw): (r: Raw)
    ensures Truthy(a) ==> r == a
    ensures !Truthy(a) ==> r == b
  {
    if Truthy(a) then a else b
  }

  // ---------------------------------------------------------------------
  // String.prototype.trim

  /** ECMAScript WhiteSpace and LineTerminator code points, the set `trim` strips. */
  predicate IsWhitespace(c: char) {
    c == '\t' || c == '\n' || c == '\U{000B}' || c == '\U{000C}' || c == '\r'
    || c == ' ' || c == '\U{00A0}' || c == '\U{1680}'
    || ('\U{2000}' <= c <= '\U{200A}')
    || c == '\U{2028}' || c == '\U{2029}' || c == '\U{202F}' || c == '\U{205F}'
    || c == '\U{3000}' || c == '\U{FEFF}'
  }

  /** Every character of `s` is whitespace (the empty string included). */
  ghost predicate AllWhitespace(s: string) {
    forall i :: 0 <= i < |s| ==> IsWhitespace(s[i])
  }

  /** The number of whitespace characters that begin `s`. */
  function LeadingSpace(s: string): (k: nat)
    ensures k <= |s|
    ensures forall i :: 0 <= i < k ==> IsWhitespace(s[i])
    ensures k < |s| ==> !IsWhitespace(s[k])
  {
    if s != [] && IsWhitespace(s[0]) then 1 + LeadingSpace(s[1..]) else 0
  }

  /** The number of whitespace characters that end `s`. */
  function TrailingSpace(s: string): (k: nat)
    ensures k <= |s|
    ensures forall i :: |s| - k <= i < |s| ==> IsWhitespace(s[i])
    ensures k < |s| ==> !IsWhitespace(s[|s| - 1 - k])
  {
    if s != [] && IsWhitespace(s[|s| - 1]) then 1 + TrailingSpace(s[..|s| - 1]) else 0
  }

  /** `s.trim()` */
  function Trim(s: string): (r: string)
    ensures r == [] || (!IsWhitespace(r[0]) && !IsWhitespace(r[|r| - 1]))
  {
    var t := s[LeadingSpace(s)..];
    t[..|t| - TrailingSpace(t)]
  }

  /** `s.trim()` is a slice of `s` that drops only whitespace. */
  lemma TrimIsSlice(s: string)
    ensures exists i, j :: 0 <= i <= j <= |s| && Trim(s) == s[i..j]
                        && AllWhitespace(s[..i]) && AllWhitespace(s[j..])
  {
    var i := LeadingSpace(s);
    var t := s[i..];
    var j := i + |t| - TrailingSpace(t);
    assert Trim(s) == s[i..j];
    assert AllWhitespace(s[..i]);
    forall k | 0 <= k < |s[j..]| ensures IsWhitespace(s[j..][k]) {
      assert s[j..][k] == t[|t| - TrailingSpace(t) + k];
    }
  }

  /** `s.trim() === ''` holds exactly for the whitespace-only strings. */
  lemma TrimEmptyIff(s: string)
    ensures Trim(s) == [] <==> AllWhitespace(s)
  {
    var i := LeadingSpace(s);
    var t := s[i..];
    if i < |s| {
      assert !IsWhitespace(t[0]);
      assert TrailingSpace(t) < |t|;
      assert !AllWhitespace(s);
    } else {
      assert AllWhitespace(s);
    }
  }

  /** Trimming is idempotent. */
  lemma TrimIdempotent(s: string)
    ensures Trim(Trim(s)) == Trim(s)
  {
    var r := Trim(s);
    if r != [] {
      assert LeadingSpace(r) == 0;
      assert TrailingSpace(r) == 0;
    }
  }

  // ---------------------------------------------------------------------
  // Stringification, as in `${v}`

  /** The decimal digits of a natural number. */
  function Digits(n: nat): (r: string)
    ensures |r| > 0
    ensures forall i :: 0 <= i < |r| ==> '0' <= r[i] <= '9'
  {
    var d := ['0', '1', '2', '3', '4', '5', '6', '7', '8', '9'][n % 10];
    if n < 10 then [d] else Digits(n / 10) + [d]
  }

  /** `String(n)` for an integer. */
  function Decimal(n: int): string {
    if n < 0 then "-" + Digits(-n) else Digits(n)
  }

  /** `String(v)`; arrays join their elements with "," and show `null`/`undefined` elements as "". */
  function Stringify(v: Raw): string
    decreases v, 1, 0
  {
    match v
    case Undefined => "undefined"
    case Null => "null"
    case Bool(b) => if b then "true" else "false"
    case Num(n) => Decimal(n)
    case Str(s) => s
    case List(items) => JoinFrom(v, 0)
    case Obj(_) => "[object Object]"
  }

  /** The elements `v.items[i..]` of an array as `Array.prototype.join(",")` writes them. */
  function JoinFrom(v: Raw, i: nat): string
    requires v.List? && i <= |v.items|
    decreases v, 0, |v.items| - i
  {
    if i == |v.items| then ""
    else
      var x := v.items[i];
      var head := if Nullish(x) then "" else Stringify(x);
      if i + 1 == |v.items| then head else head + "," + JoinFrom(v, i + 1)
  }

  /** `${v || ''}`: the text a template literal shows for `v`, falsy values shown as "". */
  function TextOr(v: Raw): (r: string)
    ensures !Truthy(v) ==> r == ""
    ensures v.Str? ==> r == v.s
  {
    if Truthy(v) then Stringify(v) else ""
  }

  // ---------------------------------------------------------------------
  // Number(...) coercion, used by `<`, `>` against a number

  predicate IsDigit(c: char) {
    '0' <= c <= '9'
  }

  /** The value of a non-empty string of decimal digits. */
  function DigitsValue(s: string): nat
    requires forall i :: 0 <= i < |s| ==> IsDigit(s[i])
  {
    if s == [] then 0
    else
      var c := s[|s| - 1];
      assert IsDigit(c);
      10 * DigitsValue(s[..|s| - 1]) + (c as int - '0' as int)
  }

  /** The value of a trimmed, optionally signed decimal integer literal; "" is 0 and None stands for NaN. */
  function LiteralValue(t: string): (r: Option<int>)
    ensures t == "" ==> r == Some(0)
    ensures r.Some? && t != "" ==> exists i :: 0 <= i < |t| && IsDigit(t[i])
  {
    if t == "" then Some(0)
    else
      var sign := if t[0] == '-' then -1 else 1;
      var body := if t[0] == '-' || t[0] == '+' then t[1..] else t;
      if body != "" && forall i :: 0 <= i < |body| ==> IsDigit(body[i])
      then
        assert IsDigit(t[|t| - 1]);
        Some(sign * DigitsValue(body))
      else None
  }

  /** `Number(s)` for a string: the literal left after trimming. */
  function StringToNumber(s: string): (r: Option<int>)
    ensures AllWhitespace(s) ==> r == Some(0)
  {
    TrimEmptyIff(s);
    LiteralValue(Trim(s))
  }

  /** `Number(v)`; None stands for NaN. */
  function ToNumber(v: Raw): (r: Option<int>)
    ensures v.Num? ==> r == Some(v.n)
    ensures v.Undefined? ==> r == None
    ensures v.Null? ==> r == Some(0)
  {
    match v
    case Undefined => None
    case Null => Some(0)
    case Bool(b) => Some(if b then 1 else 0)
    case Num(n) => Some(n)
    case _ => StringToNumber(Stringify(v))
  }

  /** `v > k` for a number `k`: comparisons with NaN are false. */
  predicate GreaterThan(v: Raw, k: int) {
    var n := ToNumber(v);
    n.Some? && n.value > k
  }

  /** `v < k` for a number `k`. */
  predicate LessThan(v: Raw, k: int) {
    var n := ToNumber(v);
    n.Some? && n.value < k
  }

  /** `v === 0` */
  predicate IsZero(v: Raw) {
    v == Num(0)
  }

  /** The digit character of a value below 10. */
  lemma DigitChar(k: nat)
    requires k < 10
    ensures ['0', '1', '2', '3', '4', '5', '6', '7', '8', '9'][k] as int - '0' as int == k
  {
  }

  /** Reading back the digits of a natural number gives that number. */
  lemma {:induction false} DigitsValueOfDigits(m: nat)
    ensures DigitsValue(Digits(m)) == m
  {
    var s := Digits(m);
    DigitChar(m % 10);
    if m >= 10 {
      DigitsValueOfDigits(m / 10);
      assert s[..|s| - 1] == Digits(m / 10);
    } else {
      assert s[..|s| - 1] == [];
    }
  }

  /** A digit is neither whitespace nor a sign. */
  lemma DigitIsPlain(c: char)
    requires IsDigit(c)
    ensures !IsWhitespace(c) && c != '-' && c != '+'
  {
  }

  /** A string that starts and ends with something other than whitespace is its own trim. */
  lemma TrimUnpadded(s: string)
    requires s != [] && !IsWhitespace(s[0]) && !IsWhitespace(s[|s| - 1])
    ensures Trim(s) == s
  {
    assert LeadingSpace(s) == 0;
    assert s[0..] == s;
    assert TrailingSpace(s) == 0;
  }

  /** The literal `ds` for a non-empty run of digits is its value. */
  lemma DigitLiteral(ds: string)
    requires ds != [] && forall i :: 0 <= i < |ds| ==> IsDigit(ds[i])
    ensures LiteralValue(ds) == Some(DigitsValue(ds))
  {
    DigitIsPlain(ds[0]);
  }

  /** The literal `"-" + ds` for a non-empty run of digits is minus its value. */
  lemma NegativeLiteral(ds: string)
    requires ds != [] && forall i :: 0 <= i < |ds| ==> IsDigit(ds[i])
    ensures LiteralValue("-" + ds) == Some(-(DigitsValue(ds) as int))
  {
    var neg := "-" + ds;
    assert neg[0] == '-';
    assert neg[1..] == ds;
  }

  /** The decimal text of an integer starts and ends with something other than whitespace. */
  lemma DecimalUnpadded(n: int)
    ensures var d := Decimal(n); d != [] && !IsWhitespace(d[0]) && !IsWhitespace(d[|d| - 1])
  {
    var ds := Digits(if n < 0 then -n else n);
    var d := Decimal(n);
    DigitIsPlain(ds[0]);
    DigitIsPlain(ds[|ds| - 1]);
    assert d[|d| - 1] == ds[|ds| - 1];
  }

  /** The decimal text of an integer, read as a literal, is that integer. */
  lemma DecimalLiteral(n: int)
    ensures LiteralValue(Decimal(n)) == Some(n)
  {
    var m: nat := if n < 0 then -n else n;
    var ds := Digits(m);
    assert forall i :: 0 <= i < |ds| ==> IsDigit(ds[i]);
    DigitsValueOfDigits(m);
    if n < 0 {
      NegativeLiteral(ds);
    } else {
      DigitLiteral(ds);
    }
  }

  /** `Number(String(n)) === n`: the decimal text of an integer coerces back to it. */
  lemma DecimalRoundTrip(n: int)
    ensures StringToNumber(Decimal(n)) == Some(n)
  {
    DecimalUnpadded(n);
    TrimUnpadded(Decimal(n));
    DecimalLiteral(n);
  }

  /** One space either side of a string without outer whitespace is trimmed away. */
  lemma TrimPadded(d: string)
    requires d != [] && !IsWhitespace(d[0]) && !IsWhitespace(d[|d| - 1])
    ensures Trim(" " + d + " ") == d
  {
    var p := " " + d + " ";
    var q := p[1..];
    assert q == d + " ";
    assert p[0] == ' ';
    assert LeadingSpace(q) == 0 by {
      assert q[0] == d[0];
    }
    assert LeadingSpace(p) == 1;
    assert q[..|q| - 1] == d;
    assert TrailingSpace(d) == 0;
    assert q[|q| - 1] == ' ';
    assert TrailingSpace(q) == 1;
  }

  /** `Number(" " + String(n) + " ") === n`: the spaces around a count are trimmed away. */
  lemma PaddedDecimalRoundTrip(n: int)
    ensures StringToNumber(" " + Decimal(n) + " ") == Some(n)
  {
    DecimalUnpadded(n);
    TrimPadded(Decimal(n));
    TrimUnpadded(Decimal(n));
    DecimalRoundTrip(n);
  }

  /** A count that arrives as its decimal text compares with a number as the count does. */
  lemma NumericStringCompares(n: int, k: int)
    ensures GreaterThan(Str(Decimal(n)), k) <==> n > k
    ensures LessThan(Str(Decimal(n)), k) <==> n < k
  {
    assert Stringify(Str(Decimal(n))) == Decimal(n);
    DecimalRoundTrip(n);
    assert ToNumber(Str(Decimal(n))) == Some(n);
  }

  /** One worked check of the coercion: `"7" > 0`, `"" < 2`, `undefined < 2` is false. */
  lemma CoercionExamples()
    ensures GreaterThan(Str("7"), 0)
    ensures LessThan(Str(""), 2)
    ensures !LessThan(Undefined, 2) && LessThan(Null, 2)
  {
    assert Trim("7") == "7";
    assert DigitsValue("7") == 7 by {
      assert "7"[..0] == "";
    }
  }
}
