/**
 * The runtime values the entity mapper and the query builder handle, with
 * the few PHP coercions the code relies on written out as total functions:
 * truthiness (`if ($x)`), the `(int)` cast, `is_numeric`, and string
 * conversion of a numeric id. Errors the code throws are values of `Error`.
 */
module Php {
  import opened Text

  /**
   * A PHP value. Arrays and objects carry their members by name; arrays
   * with integer keys are represented with the keys written in decimal.
   */
  datatype Value =
    | Null
    | Bool(b: bool)
    | Int(i: int)
    | Str(s: string)
    | Arr(items: map<string, Value>)
    | Obj(members: map<string, Value>)

  /** The exceptions the core raises, by kind, with the message the code gives. */
  datatype Error =
    | InvalidArgument(message: string)
    | UnknownColumn(message: string)

  /** The outcome of a call that either returns normally or throws. */
  datatype Outcome = Pass | Fail(error: Error)

  /** PHP truthiness: what `if ($v)` accepts. */
  predicate Truthy(v: Value) {
    match v
    case Null => false
    case Bool(b) => b
    case Int(i) => i != 0
    case Str(s) => s != "" && s != "0"
    case Arr(items) => |items| > 0
    case Obj(_) => true
  }

  /** The longest prefix of `s` made of decimal digits. */
  function LeadingDigits(s: string): (r: string)
    ensures AllDigits(r) && r <= s
    ensures |r| < |s| ==> !IsDigit(s[|r|])
    decreases |s|
  {
    if |s| > 0 && IsDigit(s[0]) then [s[0]] + LeadingDigits(s[1..]) else ""
  }

  /** A string of digits is its own leading run of digits. */
  lemma {:induction false} LeadingDigitsOfDigits(s: string)
    requires AllDigits(s)
    ensures LeadingDigits(s) == s
    decreases |s|
  {
    if |s| > 0 {
      LeadingDigitsOfDigits(s[1..]);
      assert [s[0]] + s[1..] == s;
    }
  }

  /** PHP's `(int)` of a string: an optional sign and the leading digits; no digits reads as 0. */
  function StringToInt(s: string): int {
    if |s| > 0 && s[0] == '-' then -(DigitsValue(LeadingDigits(s[1..])) as int)
    else if |s| > 0 && s[0] == '+' then DigitsValue(LeadingDigits(s[1..]))
    else DigitsValue(LeadingDigits(s))
  }

  /** PHP's `(int)` cast. */
  function IntCast(v: Value): int {
    match v
    case Null => 0
    case Bool(b) => if b then 1 else 0
    case Int(i) => i
    case Str(s) => StringToInt(s)
    case Arr(items) => if |items| == 0 then 0 else 1
    case Obj(_) => 1
  }

  /** `(int)` reads back the decimal text of every integer, as when a numeric string key comes back from the database. */
  lemma IntCastReadsDecimal(i: int)
    ensures IntCast(Str(IntToString(i))) == i
  {
    var n: nat := if i < 0 then -i else i;
    NatToStringReadsBack(n);
    LeadingDigitsOfDigits(NatToString(n));
    if i < 0 {
      assert ("-" + NatToString(n))[1..] == NatToString(n);
    }
  }

  /** An optional sign followed by one or more decimal digits. */
  predicate NumericString(s: string) {
    if |s| > 0 && (s[0] == '-' || s[0] == '+') then |s| > 1 && AllDigits(s[1..])
    else |s| > 0 && AllDigits(s)
  }

  /** PHP `is_numeric`, for integers and integer strings. */
  predicate IsNumeric(v: Value) {
    match v
    case Int(_) => true
    case Str(s) => NumericString(s)
    case _ => false
  }

  /** The text PHP concatenates for a numeric value. */
  function NumericText(v: Value): (t: string)
    requires IsNumeric(v)
    ensures |t| > 0 && '_' !in t && ':' !in t
  {
    match v
    case Int(i) =>
      var n: nat := if i < 0 then -i else i;
      NatToStringReadsBack(n);
      IntToString(i)
    case Str(s) => s
  }
}
