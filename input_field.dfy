/** The form's input field: text typed into numeric fields is read with
    `parseFloat(...) || 0`, the stepper buttons move the value by one within
    optional bounds, and currency and percentage fields render as number
    inputs. */
module InputField {
  import opened JsValues

  // ---------------------------------------------------------------------
  // parseFloat on decimal text

  predicate IsDigit(c: char) {
    '0' <= c <= '9'
  }

  predicate IsSpace(c: char) {
    c == ' ' || c == '\t' || c == '\n' || c == '\r'
  }

  predicate AllDigits(s: string) {
    forall i :: 0 <= i < |s| ==> IsDigit(s[i])
  }

  /** The leading whitespace parseFloat skips. */
  function SkipSpaces(s: string): (t: string)
    ensures |t| <= |s|
    ensures |t| > 0 ==> !IsSpace(t[0])
  {
    if |s| > 0 && IsSpace(s[0]) then SkipSpaces(s[1..]) else s
  }

  /** The length of the run of digits the text starts with. */
  function LeadingDigits(s: string): (k: nat)
    ensures k <= |s| && AllDigits(s[..k])
    ensures k < |s| ==> !IsDigit(s[k])
  {
    if |s| > 0 && IsDigit(s[0]) then
      var k := 1 + LeadingDigits(s[1..]);
      assert forall i :: 1 <= i < k ==> s[..k][i] == s[1..][..k - 1][i - 1];
      k
    else 0
  }

  /** The value of a run of decimal digits, read from the left. */
  function DigitsValue(ds: string): nat
    requires AllDigits(ds)
  {
    if |ds| == 0 then 0
    else DigitsValue(ds[..|ds| - 1]) * 10 + ((ds[|ds| - 1] as int) - ('0' as int))
  }

  function Pow10(n: nat): (p: nat)
    ensures p >= 1
  {
    if n == 0 then 1 else 10 * Pow10(n - 1)
  }

  /** Digits, then an optional point and fraction digits; at least one digit
      must appear on one side of the point. */
  function ParseUnsigned(t: string): (r: Option<real>)
    ensures r.Some? ==> r.value >= 0.0
  {
    var k := LeadingDigits(t);
    var whole := DigitsValue(t[..k]) as real;
    if k < |t| && t[k] == '.' then
      var rest := t[k + 1..];
      var f := LeadingDigits(rest);
      if k == 0 && f == 0 then None
      else Some(whole + DigitsValue(rest[..f]) as real / Pow10(f) as real)
    else if k == 0 then None
    else Some(whole)
  }

  /** parseFloat: whitespace, an optional sign, then the longest decimal
      prefix; None stands for NaN. Exponents and 'Infinity' are not read. */
  function ParseFloat(s: string): (r: Option<real>)
    ensures |SkipSpaces(s)| == 0 ==> r.None?
  {
    var t := SkipSpaces(s);
    if |t| > 0 && t[0] == '-' then
      match ParseUnsigned(t[1..])
      case None => None
      case Some(x) => Some(-x)
    else if |t| > 0 && t[0] == '+' then ParseUnsigned(t[1..])
    else ParseUnsigned(t)
  }

  /** `parseFloat(text) || 0`: NaN, and 0 itself, become 0. */
  function ParseOrZero(s: string): (x: real)
    ensures ParseFloat(s).None? ==> x == 0.0
    ensures ParseFloat(s).Some? ==> x == ParseFloat(s).value
  {
    match ParseFloat(s)
    case None => 0.0
    case Some(x) => x
  }

  /** A run of digits followed by anything that does not continue it is
      read as exactly that run. */
  lemma {:induction false} LeadingDigitsOfRun(ds: string, rest: string)
    requires AllDigits(ds)
    requires |rest| == 0 || !IsDigit(rest[0])
    ensures LeadingDigits(ds + rest) == |ds|
  {
    if |ds| > 0 {
      assert (ds + rest)[1..] == ds[1..] + rest;
      LeadingDigitsOfRun(ds[1..], rest);
    }
  }

  /** Digits with no point after them parse as their value. */
  lemma ParseUnsignedOfRun(ds: string, rest: string)
    requires AllDigits(ds) && |ds| > 0
    requires |rest| == 0 || (!IsDigit(rest[0]) && rest[0] != '.')
    ensures ParseUnsigned(ds + rest) == Some(DigitsValue(ds) as real)
  {
    LeadingDigitsOfRun(ds, rest);
    assert (ds + rest)[..|ds|] == ds;
  }

  /** Reading back the digits String(n) writes gives n. */
  lemma {:induction false} DigitsValueOfNumber(n: nat)
    ensures AllDigits(NatToString(n)) && DigitsValue(NatToString(n)) == n
  {
    var s := NatToString(n);
    if n >= 10 {
      DigitsValueOfNumber(n / 10);
      assert s[..|s| - 1] == NatToString(n / 10);
    }
  }

  /** Text that starts with a digit is read with no sign. */
  lemma ParseFloatOfDigitFirst(t: string)
    requires |t| > 0 && IsDigit(t[0])
    ensures ParseFloat(t) == ParseUnsigned(t)
  {
    assert SkipSpaces(t) == t;
  }

  /** A minus sign negates whatever number follows it. */
  lemma ParseFloatOfMinus(t: string, x: real)
    requires ParseUnsigned(t) == Some(x)
    ensures ParseFloat("-" + t) == Some(-x)
  {
    var u := "-" + t;
    assert u[0] == '-' && u[1..] == t;
    assert SkipSpaces(u) == u;
  }

  /** parseFloat undoes String(n) for whole numbers, also with trailing
      text that is not part of the number. */
  lemma ParseFloatOfNumber(n: nat, rest: string)
    requires |rest| == 0 || (!IsDigit(rest[0]) && rest[0] != '.')
    ensures ParseFloat(NatToString(n) + rest) == Some(n as real)
  {
    var s := NatToString(n);
    DigitsValueOfNumber(n);
    ParseUnsignedOfRun(s, rest);
    assert (s + rest)[0] == s[0];
    ParseFloatOfDigitFirst(s + rest);
  }

  /** The same with a minus sign in front: String(-n) reads back as -n. */
  lemma ParseFloatOfNegatedNumber(n: nat, rest: string)
    requires |rest| == 0 || (!IsDigit(rest[0]) && rest[0] != '.')
    ensures ParseFloat("-" + (NatToString(n) + rest)) == Some(-(n as real))
  {
    DigitsValueOfNumber(n);
    ParseUnsignedOfRun(NatToString(n), rest);
    ParseFloatOfMinus(NatToString(n) + rest, n as real);
  }

  lemma ReadsBackNumber(n: nat)
    ensures ParseOrZero(NatToString(n)) == n as real
  {
    ParseFloatOfNumber(n, []);
    assert NatToString(n) + [] == NatToString(n);
  }

  lemma ReadsBackNegatedNumber(n: nat)
    ensures ParseOrZero("-" + NatToString(n)) == -(n as real)
  {
    ParseFloatOfNegatedNumber(n, []);
    assert NatToString(n) + [] == NatToString(n);
  }

  /** Text that starts with anything other than a space, a sign, a point or
      a digit is NaN, so `|| 0` makes it 0. */
  lemma NonNumericReadsZero(text: string)
    requires |text| > 0 && !IsSpace(text[0]) && !IsDigit(text[0])
    requires text[0] != '-' && text[0] != '+' && text[0] != '.'
    ensures ParseFloat(text).None? && ParseOrZero(text) == 0.0
  {
    assert SkipSpaces(text) == text;
  }

  /** A lone point has no digits and reads as 0. */
  lemma LonePointReadsZero()
    ensures ParseFloat(".").None? && ParseOrZero(".") == 0.0
  {
    assert SkipSpaces(".") == "." && "."[1..] == "";
  }

  /** So does a lone minus sign, as typed on the way to a negative number. */
  lemma LoneMinusReadsZero()
    ensures ParseFloat("-").None? && ParseOrZero("-") == 0.0
  {
    assert SkipSpaces("-") == "-" && "-"[1..] == "";
  }

  // ---------------------------------------------------------------------
  // The stepper buttons

  /** `parseFloat(value) || 0` on the field's value prop: a number reads as
      itself, text as parsed, anything else as 0. */
  function NumericValue(v: Value): real {
    match v
    case Num(x) => x
    case Str(s) => ParseOrZero(s)
    case _ => 0.0
  }

  /** handleIncrement: proposes value + 1 and emits it only when there is
      no maximum or the proposal does not exceed it. */
  function Increment(value: Value, max: Option<real>): (emitted: Option<real>)
    ensures emitted.Some? <==> max.None? || NumericValue(value) + 1.0 <= max.value
    ensures emitted.Some? ==> emitted.value == NumericValue(value) + 1.0
  {
    var newValue := NumericValue(value) + 1.0;
    if max.None? || newValue <= max.value then Some(newValue) else None
  }

  /** handleDecrement: proposes value - 1 and emits it only when there is
      no minimum or the proposal is not below it. */
  function Decrement(value: Value, min: Option<real>): (emitted: Option<real>)
    ensures emitted.Some? <==> min.None? || NumericValue(value) - 1.0 >= min.value
    ensures emitted.Some? ==> emitted.value == NumericValue(value) - 1.0
  {
    var newValue := NumericValue(value) - 1.0;
    if min.None? || newValue >= min.value then Some(newValue) else None
  }

  predicate Within(x: real, min: Option<real>, max: Option<real>) {
    (min.None? || min.value <= x) && (max.None? || x <= max.value)
  }

  datatype Step = Up | Down

  /** The value after a sequence of clicks, with each emitted value fed
      back as the new prop and a rejected click leaving it alone. */
  function AfterSteps(x: real, steps: seq<Step>, min: Option<real>, max: Option<real>): real
    decreases |steps|
  {
    if |steps| == 0 then x
    else
      var emitted := if steps[0] == Up then Increment(Num(x), max) else Decrement(Num(x), min);
      AfterSteps(emitted.GetOr(x), steps[1..], min, max)
  }

  /** A value within the bounds stays within them after any clicks. */
  lemma {:induction false} StepsStayWithin(x: real, steps: seq<Step>, min: Option<real>, max: Option<real>)
    requires Within(x, min, max)
    ensures Within(AfterSteps(x, steps, min, max), min, max)
    decreases |steps|
  {
    if |steps| > 0 {
      var emitted := if steps[0] == Up then Increment(Num(x), max) else Decrement(Num(x), min);
      StepsStayWithin(emitted.GetOr(x), steps[1..], min, max);
    }
  }

  /** A step up that was taken is undone by a step down unless the minimum
      forbids the starting value itself. */
  lemma IncrementThenDecrement(x: real, min: Option<real>, max: Option<real>)
    requires Increment(Num(x), max).Some?
    requires min.None? || x >= min.value
    ensures Decrement(Num(Increment(Num(x), max).value), min) == Some(x)
  {
  }

  /** And a step down that was taken is undone by a step up. */
  lemma DecrementThenIncrement(x: real, min: Option<real>, max: Option<real>)
    requires Decrement(Num(x), min).Some?
    requires max.None? || x <= max.value
    ensures Increment(Num(Decrement(Num(x), min).value), max) == Some(x)
  {
  }

  // ---------------------------------------------------------------------
  // Typing and the input type

  predicate IsNumericType(fieldType: string) {
    fieldType == "number" || fieldType == "currency" || fieldType == "percentage"
  }

  /** What handleChange hands to onChange: numeric fields emit the parsed
      number (0 when unreadable), other fields the raw text. */
  function ChangeEmission(fieldType: string, text: string): Value {
    if IsNumericType(fieldType) then Num(ParseOrZero(text)) else Str(text)
  }

  /** Typing a whole number into a numeric field emits that number. */
  lemma TypedNumberEmitted(fieldType: string, n: nat)
    requires IsNumericType(fieldType)
    ensures ChangeEmission(fieldType, NatToString(n)) == Num(n as real)
  {
    ReadsBackNumber(n);
  }

  /** Typing it with a minus sign emits its negation. */
  lemma TypedNegativeEmitted(fieldType: string, n: nat)
    requires IsNumericType(fieldType)
    ensures ChangeEmission(fieldType, "-" + NatToString(n)) == Num(-(n as real))
  {
    ReadsBackNegatedNumber(n);
  }

  /** getInputType: currency and percentage render as number inputs, every
      other type as itself. */
  function InputType(fieldType: string): (t: string)
    ensures fieldType == "currency" || fieldType == "percentage" ==> t == "number"
    ensures fieldType != "currency" && fieldType != "percentage" ==> t == fieldType
  {
    if fieldType == "currency" || fieldType == "percentage" then "number" else fieldType
  }

  /** Mapping the type twice changes nothing more, and numeric fields stay
      numeric. */
  lemma InputTypeIdempotent(fieldType: string)
    ensures InputType(InputType(fieldType)) == InputType(fieldType)
    ensures IsNumericType(fieldType) <==> InputType(fieldType) == "number"
  {
  }

  /** The field's displayed text, set by typing and by a new value prop. */
  class Field {
    const fieldType: string
    var displayValue: Value

    constructor(fieldType: string, value: Value)
      ensures this.fieldType == fieldType && displayValue == value
    {
      this.fieldType := fieldType;
      displayValue := value;
    }

    /** The effect on a new value prop. */
    method OnValue(value: Value)
      modifies this
      ensures displayValue == value
    {
      displayValue := value;
    }

    /** handleChange: shows the typed text and returns what onChange receives. */
    method HandleChange(text: string) returns (emitted: Value)
      modifies this
      ensures displayValue == Str(text)
      ensures emitted == ChangeEmission(fieldType, text)
    {
      displayValue := Str(text);
      if fieldType == "number" || fieldType == "currency" || fieldType == "percentage" {
        var numValue := ParseOrZero(text);
        emitted := Num(numValue);
      } else {
        emitted := Str(text);
      }
    }
  }
}
