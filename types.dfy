/** Values shared by the schedule parser, the EC2 service and the handler:
    the schedule and start-result records, optional values, JavaScript's
    thrown values, and the decimal rendering used in error messages. */
module Types {

  datatype Option<+T> = None | Some(value: T)

  datatype Result<+T, +E> = Ok(value: T) | Err(error: E)

  /** A value thrown by JavaScript code: an `Error` object, which carries a
      message, or any other value. */
  datatype Thrown = ErrorObject(message: string) | OtherValue

  /** The message a `catch` block extracts:
      `error instanceof Error ? error.message : 'Unknown error'`. */
  function ErrorMessage(t: Thrown): (m: string)
    ensures t.ErrorObject? ==> m == t.message
    ensures t.OtherValue? ==> m == "Unknown error"
  {
    match t
    case ErrorObject(m) => m
    case OtherValue => "Unknown error"
  }

  /** JavaScript's `value || fallback` on an optional string: a missing or
      empty string is falsy and gives way to the fallback. */
  function OrDefault(value: Option<string>, fallback: string): string
  {
    if value.Some? && value.value != "" then value.value else fallback
  }

  /** One entry of `autoStartSchedules`. A required string field that the
      configuration leaves out is the empty string here: both are falsy. */
  datatype Schedule = Schedule(
    provider: string,
    instanceId: string,
    region: string,
    cron: string,
    enabled: Option<bool>,
    timezone: Option<string>,
    tags: Option<map<string, string>>,
    name: Option<string>)

  /** The `{ instanceId, region }` pair the handler passes to the EC2 service. */
  datatype Instance = Instance(instanceId: string, region: string)

  /** `StartResult`: a success carries the two state names and the duration,
      a failure carries the error message. Times are milliseconds. */
  datatype StartResult =
    | Started(instanceId: string, region: string, startTime: int, duration: int,
              previousState: string, currentState: string)
    | NotStarted(instanceId: string, region: string, startTime: int, error: string)
  {
    predicate Success() { Started? }
  }

  predicate IsDigit(c: char) { '0' <= c <= '9' }

  function DigitChar(d: nat): char
    requires d < 10
  {
    "0123456789"[d]
  }

  function DigitValue(c: char): nat
  {
    if IsDigit(c) then c as int - '0' as int else 0
  }

  /** The decimal rendering of a natural number, as a template literal does. */
  function NatToString(n: nat): (s: string)
    ensures |s| >= 1
    ensures forall i :: 0 <= i < |s| ==> IsDigit(s[i])
    decreases n
  {
    if n < 10 then [DigitChar(n)] else NatToString(n / 10) + [DigitChar(n % 10)]
  }

  /** The value of a string of decimal digits. */
  function ParseDecimal(s: string): nat
    decreases |s|
  {
    if s == [] then 0 else ParseDecimal(s[..|s| - 1]) * 10 + DigitValue(s[|s| - 1])
  }

  lemma {:induction false} DecimalRoundTrip(n: nat)
    ensures ParseDecimal(NatToString(n)) == n
    decreases n
  {
    var s := NatToString(n);
    if n < 10 {
      assert s[..|s| - 1] == [];
    } else {
      DecimalRoundTrip(n / 10);
      assert s[..|s| - 1] == NatToString(n / 10);
    }
  }

  /** The longest prefix of `s` made of decimal digits. */
  function LeadingDigits(s: string): (r: string)
    ensures |r| <= |s| && r == s[..|r|]
    ensures forall i :: 0 <= i < |r| ==> IsDigit(r[i])
    ensures |r| < |s| ==> !IsDigit(s[|r|])
    decreases |s|
  {
    if s == [] || !IsDigit(s[0]) then [] else [s[0]] + LeadingDigits(s[1..])
  }

  lemma {:induction false} LeadingDigitsOfDigits(digits: string, rest: string)
    requires forall i :: 0 <= i < |digits| ==> IsDigit(digits[i])
    requires rest != [] && !IsDigit(rest[0])
    ensures LeadingDigits(digits + rest) == digits
    decreases |digits|
  {
    if digits != [] {
      assert (digits + rest)[1..] == digits[1..] + rest;
      LeadingDigitsOfDigits(digits[1..], rest);
    }
  }
}
