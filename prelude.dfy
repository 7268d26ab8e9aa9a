/** Small wrapper types and Python built-in limits shared by every module of the model. */
module Prelude {

  /** Python's `None`-or-value. */
  datatype Option<+T> = None | Some(value: T)

  /** The outcome of a call that either returns a value or raises; `Err` carries `str(e)`. */
  datatype Result<+T> = Ok(value: T) | Err(message: string)

  /** Python truthiness of an optional integer id (`None` and `0` are falsy). */
  predicate Truthy(id: Option<int>) {
    id.Some? && id.value != 0
  }

  /**
   * The instants Python's `datetime` can hold, as epoch seconds in UTC: from
   * 0001-01-01 00:00:00 to 9999-12-31 23:59:59.
   */
  const MinEpoch: int := -62135596800
  const MaxEpoch: int := 253402300799

  predicate InDatetimeRange(epoch: int) {
    MinEpoch <= epoch <= MaxEpoch
  }

  /** What `fromtimestamp` raises for an instant outside the years 1 to 9999. */
  const YearOutOfRange: string := "year is out of range"

  /** What `datetime + timedelta` raises when the sum leaves the years 1 to 9999. */
  const DateOutOfRange: string := "date value out of range"

  /** `datetime.fromtimestamp(epoch)` on a UTC clock, in epoch seconds. */
  function FromTimestamp(epoch: int): Result<int> {
    if InDatetimeRange(epoch) then Ok(epoch) else Err(YearOutOfRange)
  }
}
