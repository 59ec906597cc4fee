/** The values the booking flow passes around: the order-in-progress held by the
    pickup store, its parts, and the small wrappers used for absent values and errors. */
module PickupTypes {

  /** A value that may be absent (`T | null` in the source). */
  datatype Option<+T> = None | Some(value: T) {
    predicate IsFailure() { None? }
    function PropagateFailure<U>(): Option<U> requires None? { None }
    function Extract(): T requires Some? { value }
  }

  /** An operation that either yields a value or fails with an error (a thrown exception). */
  datatype Result<+R, +E> = Success(value: R) | Failure(error: E) {
    predicate IsFailure() { Failure? }
    function PropagateFailure<U>(): Result<U, E> requires Failure? { Failure(error) }
    function Extract(): R requires Success? { value }
  }

  /** The details collected by the first step. `images` holds image payloads (data URLs). */
  datatype SneakerDetails = SneakerDetails(
    sneakerType: string,
    condition: string,
    issue: string,
    notes: string,
    images: seq<string>)

  /** The pickup date and time chosen in the second step, both as display text. */
  datatype PickupSlot = PickupSlot(date: string, time: string)

  /** A JavaScript number as far as the discount needs it: an integer, or NaN
      (what `Number` gives for text that is not a numeral). */
  datatype Num = Finite(n: int) | NaN

  /** The four fields of the store: the unit that is persisted and reset. */
  datatype OrderState = OrderState(
    sneakerDetails: SneakerDetails,
    pickupSlot: Option<PickupSlot>,
    coupon: string,
    discount: Option<Num>)

  /** The three pages of the flow, in order: details ("/"), slots ("/slots"), review ("/review"). */
  datatype Step = DetailsStep | SlotsStep | ReviewStep

  const DefaultSneakerDetails := SneakerDetails("", "", "", "", [])

  const DefaultState := OrderState(DefaultSneakerDetails, None, "", None)

  /** JavaScript truthiness of a string: only the empty string is falsy. */
  predicate Truthy(s: string) { s != "" }
}
