/**
 * The slice of JavaScript value semantics that the client's logic relies on:
 * values decoded from JSON (plus `undefined`), truthiness, property reads that
 * throw on `null`/`undefined`, the `||` operator, template-literal
 * stringification, `Number(string)` and `String.prototype.includes`.
 */
module JsValues {

  datatype Option<T> = None | Some(value: T)

  /** A thrown JavaScript error: its constructor name and its `message`. */
  datatype JsError = JsError(name: string, message: string)

  /** The outcome of an operation that may throw. */
  datatype Result<T> = Ok(value: T) | Err(error: JsError)

  /** A JavaScript value as the client sees it. Numbers are integers here. */
  datatype JsValue =
    | Undefined
    | Null
    | Bool(b: bool)
    | Num(n: int)
    | Str(s: string)
    | Arr(items: seq<JsValue>)
    | Obj(fields: map<string, JsValue>)

  /** An `Error` raised by `new Error(message)`. */
  function Error(message: string): JsError { JsError("Error", message) }

  predicate Nullish(v: JsValue) { v.Undefined? || v.Null? }

  /** JavaScript truthiness: `undefined`, `null`, `false`, `0` and `""` are falsy. */
  predicate Truthy(v: JsValue)
  {
    match v
    case Undefined => false
    case Null => false
    case Bool(b) => b
    case Num(n) => n != 0
    case Str(s) => s != ""
    case Arr(_) => true
    case Obj(_) => true
  }

  /** `a || b`: the first operand when it is truthy, otherwise the second. */
  function Or(a: JsValue, b: JsValue): (r: JsValue)
    ensures Truthy(a) ==> r == a
    ensures !Truthy(a) ==> r == b
  {
    if Truthy(a) then a else b
  }

  /**
   * `v.key` on a value that is not null or undefined. Only object fields are
   * read; the few built-in properties of strings and arrays are never asked for
   * by the client and read as `undefined` here.
   */
  function Prop(v: JsValue, key: string): JsValue
    requires !Nullish(v)
  {
    if v.Obj? && key in v.fields then v.fields[key] else Undefined
  }

  /** `v?.key`: `undefined` when `v` is null or undefined. */
  function OptProp(v: JsValue, key: string): JsValue
  {
    if Nullish(v) then Undefined else Prop(v, key)
  }

  /** The TypeError a property read on `null`/`undefined` throws. */
  function ReadError(v: JsValue, key: string): JsError
    requires Nullish(v)
  {
    JsError("TypeError", "Cannot read properties of " + (if v.Null? then "null" else "undefined")
                         + " (reading '" + key + "')")
  }

  /** `v.key` in full: throws a TypeError when `v` is null or undefined. */
  function ReadProp(v: JsValue, key: string): (r: Result<JsValue>)
    ensures r.Err? <==> Nullish(v)
    ensures r.Ok? ==> r.value == Prop(v, key)
  {
    if Nullish(v) then Err(ReadError(v, key)) else Ok(Prop(v, key))
  }

  /** Decimal digits of a natural number, most significant first. */
  function NatText(n: nat): (r: string)
    ensures |r| > 0
    ensures forall k :: 0 <= k < |r| ==> '0' <= r[k] <= '9'
    decreases n
  {
    if n < 10 then [DigitChar(n)] else NatText(n / 10) + [DigitChar(n % 10)]
  }

  function DigitChar(d: nat): (c: char)
    requires d < 10
    ensures '0' <= c <= '9'
  {
    ['0', '1', '2', '3', '4', '5', '6', '7', '8', '9'][d]
  }

  function IntText(n: int): string
  {
    if n < 0 then "-" + NatText(-n) else NatText(n)
  }

  /**
   * `String(v)`, which is also what `${v}` and `new Error(v).message` produce.
   * Array elements that are null or undefined print as empty strings.
   */
  function ToJsString(v: JsValue): string
    decreases v
  {
    match v
    case Undefined => "undefined"
    case Null => "null"
    case Bool(b) => if b then "true" else "false"
    case Num(n) => IntText(n)
    case Str(s) => s
    case Arr(items) => JoinItems(items, v)
    case Obj(_) => "[object Object]"
  }

  function JoinItems(items: seq<JsValue>, ghost whole: JsValue): string
    requires forall k :: 0 <= k < |items| ==> items[k] < whole
    decreases whole, |items|
  {
    if items == [] then ""
    else
      var head := if Nullish(items[0]) then "" else ToJsString(items[0]);
      if |items| == 1 then head else head + "," + JoinItems(items[1..], whole)
  }

  /** The value of a string of decimal digits, read left to right. */
  function DigitsValue(s: string): nat
    requires forall k :: 0 <= k < |s| ==> '0' <= s[k] <= '9'
  {
    if s == [] then 0 else DigitsValue(s[..|s| - 1]) * 10 + (s[|s| - 1] as int - '0' as int)
  }

  predicate AllDigits(s: string) { forall k :: 0 <= k < |s| ==> '0' <= s[k] <= '9' }

  /**
   * `Number(s)` for the strings the client feeds it: the empty string is 0, a
   * run of decimal digits is its value, and everything else is NaN (None).
   */
  function ToNumber(s: string): (r: Option<int>)
    ensures s == "" ==> r == Some(0)
    ensures r.Some? <==> AllDigits(s)
  {
    if AllDigits(s) then Some(DigitsValue(s)) else None
  }

  lemma {:induction false} DigitsValueOfDigitChar(s: string, d: nat)
    requires d < 10 && AllDigits(s)
    ensures AllDigits(s + [DigitChar(d)])
    ensures DigitsValue(s + [DigitChar(d)]) == DigitsValue(s) * 10 + d
  {
    var t := s + [DigitChar(d)];
    assert t[..|t| - 1] == s;
    assert DigitChar(d) as int - '0' as int == d;
  }

  /** Reading back the decimal text of `n` gives `n`. */
  lemma {:induction false} NatTextRoundTrip(n: nat)
    ensures DigitsValue(NatText(n)) == n
    decreases n
  {
    if n < 10 {
      DigitsValueOfDigitChar([], n);
      assert NatText(n) == [] + [DigitChar(n)];
    } else {
      NatTextRoundTrip(n / 10);
      DigitsValueOfDigitChar(NatText(n / 10), n % 10);
    }
  }

  function Zeros(k: nat): (r: string)
    ensures |r| == k && AllDigits(r)
  {
    if k == 0 then "" else "0" + Zeros(k - 1)
  }

  /** `String(n).padStart(width, "0")`. */
  function PadNat(n: nat, width: nat): (r: string)
    ensures AllDigits(r)
    ensures |r| == if |NatText(n)| < width then width else |NatText(n)|
  {
    var t := NatText(n);
    if |t| < width then Zeros(width - |t|) + t else t
  }

  /** A leading zero does not change the value of a digit string. */
  lemma {:induction false} LeadingZero(s: string)
    requires AllDigits(s)
    ensures AllDigits("0" + s)
    ensures DigitsValue("0" + s) == DigitsValue(s)
    decreases |s|
  {
    var t := "0" + s;
    if s == [] {
      assert t[..0] == [];
    } else {
      var s' := s[..|s| - 1];
      LeadingZero(s');
      assert t[..|t| - 1] == "0" + s';
      assert t[|t| - 1] == s[|s| - 1];
    }
  }

  /** Any run of leading zeros leaves the value as it was. */
  lemma {:induction false} LeadingZeros(k: nat, t: string)
    requires AllDigits(t)
    ensures AllDigits(Zeros(k) + t)
    ensures DigitsValue(Zeros(k) + t) == DigitsValue(t)
  {
    if k > 0 {
      LeadingZeros(k - 1, t);
      assert Zeros(k) + t == "0" + (Zeros(k - 1) + t);
      LeadingZero(Zeros(k - 1) + t);
    } else {
      assert Zeros(k) + t == t;
    }
  }

  /** Zero-padding never changes the number a digit string reads back as. */
  lemma PadNatRoundTrip(n: nat, width: nat)
    ensures ToNumber(PadNat(n, width)) == Some(n)
  {
    var t := NatText(n);
    NatTextRoundTrip(n);
    assert AllDigits(t);
    if |t| < width {
      LeadingZeros(width - |t|, t);
      assert PadNat(n, width) == Zeros(width - |t|) + t;
    } else {
      assert PadNat(n, width) == t;
    }
  }

  function Pow10(k: nat): nat { if k == 0 then 1 else 10 * Pow10(k - 1) }

  lemma NatTextLength(n: nat, k: nat)
    requires n < Pow10(k) && k > 0
    ensures |NatText(n)| <= k
    decreases k
  {
    if n >= 10 {
      assert k > 1;
      NatTextLength(n / 10, k - 1);
    }
  }

  /** `s.length`: UTF-16 code units, two for each character beyond U+FFFF. */
  function Utf16Length(s: string): (n: nat)
    ensures |s| <= n <= 2 * |s|
  {
    if s == [] then 0 else (if s[0] as int > 0xFFFF then 2 else 1) + Utf16Length(s[1..])
  }

  /** On text without characters beyond U+FFFF, `.length` counts characters. */
  lemma {:induction false} Utf16LengthOfBmp(s: string)
    requires forall k :: 0 <= k < |s| ==> s[k] as int <= 0xFFFF
    ensures Utf16Length(s) == |s|
  {
    if s != [] {
      assert forall k :: 0 <= k < |s[1..]| ==> s[1..][k] == s[k + 1];
      Utf16LengthOfBmp(s[1..]);
    }
  }

  /** `s.includes(sub)`. */
  predicate Includes(s: string, sub: string)
  {
    exists i | 0 <= i <= |s| - |sub| :: OccursAt(s, sub, i)
  }

  predicate OccursAt(s: string, sub: string, i: int)
  {
    0 <= i <= |s| - |sub| && s[i..i + |sub|] == sub
  }

  lemma OccurrenceChar(s: string, sub: string, i: int, k: nat)
    requires OccursAt(s, sub, i) && k < |sub|
    ensures s[i + k] == sub[k]
  {
    assert s[i..i + |sub|][k] == s[i + k];
  }

  /** A text never includes a string with a character the text lacks. */
  lemma CharAbsent(s: string, sub: string, k: nat)
    requires k < |sub| && sub[k] !in s
    ensures !Includes(s, sub)
  {
    if i :| 0 <= i <= |s| - |sub| && OccursAt(s, sub, i) {
      OccurrenceChar(s, sub, i, k);
    }
  }

  /** No character `y` of `s` follows an `x`. */
  predicate NoPair(s: string, x: char, y: char)
  {
    forall j | 1 <= j < |s| :: s[j] == y ==> s[j - 1] != x
  }

  /**
   * `a + b` never includes a string whose first two characters never stand
   * side by side in `a` and whose second character `b` lacks.
   */
  lemma PairAbsent(a: string, b: string, sub: string)
    requires |sub| >= 2 && NoPair(a, sub[0], sub[1]) && sub[1] !in b
    ensures !Includes(a + b, sub)
  {
    var s := a + b;
    if i :| 0 <= i <= |s| - |sub| && OccursAt(s, sub, i) {
      OccurrenceChar(s, sub, i, 1);
    }
  }

  /** A text includes its own beginning. */
  lemma IncludesPrefix(a: string, b: string)
    ensures Includes(a + b, a)
  {
    assert (a + b)[..|a|] == a;
    assert OccursAt(a + b, a, 0);
  }

  /**
   * A JavaScript Date: invalid, or its fields (month counted from 0, no
   * milliseconds). The device time zone is taken to be UTC.
   */
  datatype JsDate =
    | InvalidDate
    | DateTime(year: int, month: int, day: int, hour: int, minute: int, second: int)

  function PadInt(n: int, width: nat): string
  {
    if n < 0 then "-" + PadNat(-n, width) else PadNat(n, width)
  }

  /** The year as `toISOString` prints it: four digits, or a sign and six. */
  function IsoYear(y: int): string
  {
    if 0 <= y <= 9999 then PadNat(y, 4)
    else if y < 0 then "-" + PadNat(-y, 6)
    else "+" + PadNat(y, 6)
  }

  /** `d.toISOString()`: throws a RangeError on an invalid date. */
  function ToIsoString(d: JsDate): (r: Result<string>)
    ensures r.Err? <==> d.InvalidDate?
  {
    match d
    case InvalidDate => Err(JsError("RangeError", "Invalid time value"))
    case DateTime(y, mo, dd, h, mi, s) =>
      Ok(IsoYear(y) + "-" + PadInt(mo + 1, 2) + "-" + PadInt(dd, 2) + "T" + PadInt(h, 2) + ":"
         + PadInt(mi, 2) + ":" + PadInt(s, 2) + ".000Z")
  }
}
