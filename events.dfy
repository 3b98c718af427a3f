/**
 * The incoming event dictionary and the admission checks `process_event` runs on it before
 * touching any state: the five required keys, the `C###` customer-id format, the parse of
 * `event_time` and the numeric, non-negative `amount`.
 */
module Events {
  import opened Wrappers

  /** The value under "customer_id": a string, or a value of some other type (say a number). */
  datatype CustomerField = Text(id: string) | NonText(value: int)

  /**
   * The value under "event_time" as `datetime.fromisoformat` sees it: it parses to an instant
   * (seconds since the epoch), or the parse raises (ValueError for a bad string,
   * AttributeError for a value that is not a string).
   */
  datatype TimeField = IsoInstant(instant: int) | NotIso

  /**
   * The value under "amount" as `float(...)` sees it, in cents: a number, a string that
   * `float` accepts (such as "12.50"), or a value `float` rejects.
   */
  datatype AmountField = Number(cents: int) | NumericText(cents: int) | NotNumeric

  /** An event dictionary; a field is `None` when its key is absent. */
  datatype RawEvent = RawEvent(
    eventId: Option<string>,
    customerId: Option<CustomerField>,
    eventTime: Option<TimeField>,
    eventType: Option<string>,
    amount: Option<AmountField>)

  /** An event that passed the key and customer-id checks. */
  datatype Admitted = Admitted(eventId: string, customerId: string, eventTime: TimeField, amount: AmountField)

  /** `required_fields.issubset(event)`: all five keys are present. */
  predicate HasRequiredFields(e: RawEvent)
  {
    e.eventId.Some? && e.customerId.Some? && e.eventTime.Some? && e.eventType.Some? && e.amount.Some?
  }

  predicate IsDigit(ch: char)
  {
    '0' <= ch <= '9'
  }

  /** A string of length 4 whose first character is 'C' and whose other three are digits. */
  predicate IsCustomerId(s: string)
  {
    |s| == 4 && s[0] == 'C' && IsDigit(s[1]) && IsDigit(s[2]) && IsDigit(s[3])
  }

  function Digit(n: nat): (ch: char)
    requires n < 10
    ensures IsDigit(ch)
  {
    ('0' as int + n) as char
  }

  function DigitValue(ch: char): (n: nat)
    requires IsDigit(ch)
    ensures n < 10 && Digit(n) == ch
  {
    ch as int - '0' as int
  }

  /** The id the simulated producer gives customer `n`: `f"C{n:03d}"`. */
  function FormatCustomerId(n: nat): string
    requires n < 1000
  {
    ['C', Digit(n / 100), Digit(n / 10 % 10), Digit(n % 10)]
  }

  /** The customer number a valid id spells. */
  function CustomerNumber(s: string): (n: nat)
    requires IsCustomerId(s)
    ensures n < 1000
  {
    100 * DigitValue(s[1]) + 10 * DigitValue(s[2]) + DigitValue(s[3])
  }

  /** Every id of the form `C%03d` passes the format check and spells back its number. */
  lemma FormattedIdsPass(n: nat)
    requires n < 1000
    ensures IsCustomerId(FormatCustomerId(n))
    ensures CustomerNumber(FormatCustomerId(n)) == n
  {
  }

  /** Conversely, every id that passes the check is of the form `C%03d`. */
  lemma PassingIdsAreFormatted(s: string)
    requires IsCustomerId(s)
    ensures FormatCustomerId(CustomerNumber(s)) == s
  {
    var a, b, c := DigitValue(s[1]), DigitValue(s[2]), DigitValue(s[3]);
    var n := CustomerNumber(s);
    var low := 10 * b + c;
    assert n == 100 * a + low && 0 <= low < 100;
    assert n / 100 == a;
    assert n / 10 == 10 * a + b;
    assert n / 10 % 10 == b;
    assert n % 10 == c;
    var f := FormatCustomerId(n);
    assert f[1] == s[1] && f[2] == s[2] && f[3] == s[3];
  }

  /** The checks of lines 164-174: required keys first, then the customer-id format. */
  function Admit(e: RawEvent): (r: Option<Admitted>)
    ensures r.Some? ==> HasRequiredFields(e) && IsCustomerId(r.value.customerId)
    ensures r.Some? ==> e == RawEvent(Some(r.value.eventId), Some(Text(r.value.customerId)),
                                      Some(r.value.eventTime), e.eventType, Some(r.value.amount))
    ensures r.None? <==> !HasRequiredFields(e) || !e.customerId.value.Text?
                         || !IsCustomerId(e.customerId.value.id)
  {
    if !HasRequiredFields(e) then None
    else match e.customerId.value
      case NonText(_) => None
      case Text(id) =>
        if !IsCustomerId(id) then None
        else Some(Admitted(e.eventId.value, id, e.eventTime.value, e.amount.value))
  }

  /** `datetime.fromisoformat(...)`, with a raised exception as `None`. */
  function FromIsoFormat(f: TimeField): (r: Option<int>)
    ensures r.None? <==> f.NotIso?
    ensures r.Some? ==> f == IsoInstant(r.value)
  {
    match f
    case IsoInstant(t) => Some(t)
    case NotIso => None
  }

  /** Lines 192-199: `float(amount)`, refusing a value `float` rejects and a negative amount. */
  function ParseAmount(f: AmountField): (r: Option<nat>)
    ensures r.None? <==> f.NotNumeric? || f.cents < 0
    ensures r.Some? ==> r.value == f.cents
  {
    match f
    case NotNumeric => None
    case Number(c) => if c < 0 then None else Some(c)
    case NumericText(c) => if c < 0 then None else Some(c)
  }
}
