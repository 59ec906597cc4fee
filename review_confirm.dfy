/** The review step: the guard that sends an incomplete order back to the first
    step, the coupon rule, the price, and confirmation (which clears the store).
    Prices are in whole cents. */
module ReviewConfirm {
  import opened PickupTypes
  import opened PickupContext

  // ---------------------------------------------------------------------------
  // The prerequisite guard
  // ---------------------------------------------------------------------------

  /** Type, condition and issue are filled in, and a slot with a date and a time is chosen. */
  predicate HasRequiredData(st: OrderState)
  {
    && Truthy(st.sneakerDetails.sneakerType)
    && Truthy(st.sneakerDetails.condition)
    && Truthy(st.sneakerDetails.issue)
    && st.pickupSlot.Some?
    && Truthy(st.pickupSlot.value.date)
    && Truthy(st.pickupSlot.value.time)
  }

  /** The page shown when the review step is entered with state `st`. */
  function EntryStep(st: OrderState): Step
  {
    if HasRequiredData(st) then ReviewStep else DetailsStep
  }

  /** Review is shown exactly when the five required texts are all non-empty; any
      missing one redirects to the first step. */
  lemma EntryStepIff(st: OrderState)
    ensures EntryStep(st) == ReviewStep <==>
      && st.sneakerDetails.sneakerType != ""
      && st.sneakerDetails.condition != ""
      && st.sneakerDetails.issue != ""
      && st.pickupSlot.Some?
      && st.pickupSlot.value.date != ""
      && st.pickupSlot.value.time != ""
    ensures EntryStep(DefaultState) == DetailsStep
  {
  }

  // ---------------------------------------------------------------------------
  // The coupon rule
  // ---------------------------------------------------------------------------

  const CouponCode := "CLEAN10"
  const CouponPercent := 10
  const InvalidCouponMessage := "Invalid coupon code"

  /** `toUpperCase` on one character (ASCII letters). */
  function UpperChar(c: char): char
  {
    if 'a' <= c <= 'z' then (c as int - 32) as char else c
  }

  function ToUpper(s: string): string
  {
    seq(|s|, i requires 0 <= i < |s| => UpperChar(s[i]))
  }

  /** What applying the text `input` leads to. */
  datatype CouponVerdict = NoInput | Accepted(code: string, percent: int) | Rejected(message: string)

  function CouponVerdictOf(input: string): CouponVerdict
  {
    if !Truthy(input) then NoInput
    else if ToUpper(input) == CouponCode then Accepted(input, CouponPercent)
    else Rejected(InvalidCouponMessage)
  }

  /** Case-insensitive equality with an upper-case word, stated letter by letter:
      each character is the word's letter or its lower-case form. */
  predicate SameLetters(input: string, word: string)
  {
    |input| == |word| &&
    forall i :: 0 <= i < |input| ==>
      input[i] == word[i] || ('A' <= word[i] <= 'Z' && input[i] as int == word[i] as int + 32)
  }

  /** The coupon is accepted exactly when the input spells CLEAN10 in any letter case;
      the raw input is kept as the code and the discount is 10. Empty input is not
      applied, and anything else is rejected with the error message. */
  lemma CouponRule(input: string)
    ensures CouponVerdictOf(input).Accepted? <==> SameLetters(input, CouponCode)
    ensures CouponVerdictOf(input).Accepted? ==>
      CouponVerdictOf(input) == Accepted(input, 10)
    ensures CouponVerdictOf(input) == NoInput <==> input == ""
    ensures input != "" && !SameLetters(input, CouponCode) ==>
      CouponVerdictOf(input) == Rejected("Invalid coupon code")
  {
    if SameLetters(input, CouponCode) {
      assert forall i :: 0 <= i < |input| ==> ToUpper(input)[i] == CouponCode[i];
      assert ToUpper(input) == CouponCode;
    }
    if ToUpper(input) == CouponCode {
      forall i | 0 <= i < |input|
        ensures input[i] == CouponCode[i] || ('A' <= CouponCode[i] <= 'Z' && input[i] as int == CouponCode[i] as int + 32)
      {
        assert UpperChar(input[i]) == CouponCode[i];
      }
    }
  }

  // ---------------------------------------------------------------------------
  // The price
  // ---------------------------------------------------------------------------

  const BasePriceCents := 2500

  /** Truthiness of the discount: null, NaN and 0 are all falsy. */
  predicate HasDiscount(discount: Option<Num>)
  {
    discount.Some? && discount.value.Finite? && discount.value.n != 0
  }

  /** `discountAmount`, in cents. */
  function DiscountCents(discount: Option<Num>): (c: int)
    ensures !HasDiscount(discount) ==> c == 0
    ensures HasDiscount(discount) && 0 <= discount.value.n <= 100 ==> 0 <= c <= BasePriceCents
  {
    if HasDiscount(discount) then BasePriceCents * discount.value.n / 100 else 0
  }

  /** `totalPrice`, in cents. */
  function TotalCents(discount: Option<Num>): int
  {
    BasePriceCents - DiscountCents(discount)
  }

  /** The price rule: the discount amount is exactly `d` percent of the base price
      (no rounding), the total and the discount add up to the base price, a
      percentage within 0..100 keeps both within 0..25 dollars, and CLEAN10 makes
      the total 22.50. */
  lemma PriceRule(discount: Option<Num>)
    ensures HasDiscount(discount) ==> 100 * DiscountCents(discount) == BasePriceCents * discount.value.n
    ensures TotalCents(discount) + DiscountCents(discount) == BasePriceCents
    ensures !HasDiscount(discount) ==> TotalCents(discount) == 2500
    ensures HasDiscount(discount) && 0 <= discount.value.n <= 100 ==>
      0 <= TotalCents(discount) <= BasePriceCents
    ensures TotalCents(Some(Finite(CouponPercent))) == 2250
  {
    if HasDiscount(discount) {
      var n := discount.value.n;
      assert BasePriceCents * n == 100 * (25 * n);
      assert DiscountCents(discount) == 25 * n;
    }
  }

  // ---------------------------------------------------------------------------
  // The page's own state and its handlers
  // ---------------------------------------------------------------------------

  class ReviewPage {
    const store: PickupStore
    var couponInput: string
    var errorMessage: string

    /** The coupon field starts with the stored code and no error is shown. */
    constructor (store: PickupStore)
      ensures this.store == store
      ensures couponInput == store.coupon && errorMessage == ""
    {
      this.store := store;
      couponInput := store.coupon;
      errorMessage := "";
    }

    /** Typing in the coupon field. */
    method ChangeCouponInput(text: string)
      modifies this`couponInput
      ensures couponInput == text
    {
      couponInput := text;
    }

    /** `handleApplyCoupon`, with its delayed validation taken as one step. Empty input
        does nothing; CLEAN10 in any case stores the raw input with 10 percent; anything
        else shows the error and leaves the store as it was. */
    method HandleApplyCoupon()
      modifies this`errorMessage, store
      ensures couponInput == old(couponInput)
      ensures match CouponVerdictOf(couponInput)
        case NoInput =>
          errorMessage == old(errorMessage)
          && store.State() == old(store.State()) && store.storage == old(store.storage)
        case Accepted(code, percent) =>
          errorMessage == ""
          && store.State() == old(store.State()).(coupon := code, discount := Some(Finite(percent)))
          && store.storage == CouponWrite(old(store.storage), code, Some(Finite(percent)))
        case Rejected(message) =>
          errorMessage == message
          && store.State() == old(store.State()) && store.storage == old(store.storage)
      ensures old(store.Mirrored()) ==> store.Mirrored()
    {
      if !Truthy(couponInput) {
        return;
      }
      errorMessage := "";
      if ToUpper(couponInput) == CouponCode {
        store.UpdateCoupon(couponInput, Some(Finite(CouponPercent)));
      } else {
        errorMessage := InvalidCouponMessage;
      }
    }

    /** `handleConfirm`: clears the store and its four keys and returns to the first step. */
    method HandleConfirm() returns (next: Step)
      modifies store
      ensures next == DetailsStep
      ensures store.State() == DefaultState
      ensures store.storage == old(store.storage) - StoreKeys
      ensures store.Mirrored()
      ensures EntryStep(store.State()) == DetailsStep
    {
      store.ResetState();
      next := DetailsStep;
    }
  }
}
