/** Values shared by the whole model: optional values, Ruby errors, the
    permissive numeric input accepted by every monetary setter, and the
    date/time values of an invoice. */
module Values {

  /** `nil` or a value. */
  datatype Option<+T> = None | Some(value: T)

  /** Ruby's `value || default` on an optional value. */
  function GetOr<T>(o: Option<T>, default: T): T
  {
    match o
    case Some(v) => v
    case None => default
  }

  /** The errors the modelled code can raise. */
  datatype RubyError = NoMethodError(receiverClass: string, methodName: string)

  /** A value, or the exception raised while computing it. */
  datatype Result<+T> = Ok(value: T) | Raises(error: RubyError) {
    predicate IsFailure() { Raises? }

    function PropagateFailure<U>(): Result<U>
      requires Raises?
    {
      Raises(error)
    }

    function Extract(): T
      requires Ok?
    {
      value
    }
  }

  /** What a caller may hand to a numeric setter: `nil`, a value whose `to_s`
      is blank (an empty or whitespace-only string), or a decimal value.
      Parsing non-blank strings into decimals is not modelled: such inputs are
      taken as already-parsed `Given` values. A blank string is truthy in
      Ruby, so `options[:quantity] || '1'` keeps it. */
  datatype Input = Nil | Blank | Given(value: real)

  /** The shared normalisation of the setters: `value = 0 if value.to_s.blank?`
      followed by `BigDecimal(value.to_s)`. */
  function Normalize(input: Input): real
  {
    match input
    case Given(v) => v
    case _ => 0.0
  }

  /** `options[key] || default` for a numeric option: only `nil` falls back. */
  function OrDefault(input: Input, default: real): Input
  {
    if input.Nil? then Given(default) else input
  }

  /** A date-like value held in `due_at`, `paid_at`, `refunded_at` or
      `invoice_date`: a `Date` (a day number), a `Time` (an instant), or any
      other object, shown through its `to_s` text. */
  datatype Moment = Date(day: int) | Time(instant: int) | Other(text: string)

  /** `Date.today` and `Time.now`, passed in rather than read from the clock. */
  datatype Clock = Clock(today: int, now: int)
}
