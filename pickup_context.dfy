/** The persisted pickup store: the order-in-progress held in memory and mirrored,
    field by field, into the browser's string key-value storage under four keys. At
    start-up each field is rebuilt from its key; an absent (or empty) key means the
    field's default. */
module PickupContext {
  import opened PickupTypes
  import opened Codec

  const SneakerDetailsKey := "sneakerDetails"
  const PickupSlotKey := "pickupSlot"
  const CouponKey := "coupon"
  const DiscountKey := "discount"

  const StoreKeys: set<string> := {SneakerDetailsKey, PickupSlotKey, CouponKey, DiscountKey}

  /** Why start-up fails: `JSON.parse` throws on a stored object it cannot read. */
  datatype LoadError = MalformedDetails | MalformedSlot

  /** What `usePickup` throws outside a provider. */
  const ProviderMissing := "usePickup must be used within a PickupProvider"

  // ---------------------------------------------------------------------------
  // The lazy initialisers, one per field
  // ---------------------------------------------------------------------------

  /** `localStorage.getItem(key)` where the result is then tested for truthiness:
      an absent key and an empty value both read as nothing saved. */
  function Saved(storage: map<string, string>, key: string): Option<string>
  {
    if key in storage && storage[key] != "" then Some(storage[key]) else None
  }

  function LoadDetails(storage: map<string, string>): Result<SneakerDetails, LoadError>
  {
    match Saved(storage, SneakerDetailsKey)
    case None => Success(DefaultSneakerDetails)
    case Some(text) =>
      match DecodeDetails(text)
      case Some(d) => Success(d)
      case None => Failure(MalformedDetails)
  }

  function LoadSlot(storage: map<string, string>): Result<Option<PickupSlot>, LoadError>
  {
    match Saved(storage, PickupSlotKey)
    case None => Success(None)
    case Some(text) =>
      match DecodeSlot(text)
      case Some(p) => Success(Some(p))
      case None => Failure(MalformedSlot)
  }

  function LoadCoupon(storage: map<string, string>): string
  {
    match Saved(storage, CouponKey)
    case Some(code) => code
    case None => ""
  }

  function LoadDiscount(storage: map<string, string>): Option<Num>
  {
    match Saved(storage, DiscountKey)
    case Some(text) => Some(DecodeNum(text))
    case None => None
  }

  /** A details text is saved but does not parse. */
  predicate DetailsMalformed(storage: map<string, string>)
  {
    Saved(storage, SneakerDetailsKey).Some? && DecodeDetails(Saved(storage, SneakerDetailsKey).value).None?
  }

  /** A slot text is saved but does not parse. */
  predicate SlotMalformed(storage: map<string, string>)
  {
    Saved(storage, PickupSlotKey).Some? && DecodeSlot(Saved(storage, PickupSlotKey).value).None?
  }

  /** All four initialisers, in the order the provider runs them; the first one that
      throws ends start-up. */
  function Hydrate(storage: map<string, string>): (r: Result<OrderState, LoadError>)
    ensures r.Failure? <==> DetailsMalformed(storage) || SlotMalformed(storage)
    ensures r.Failure? ==> r.error == if DetailsMalformed(storage) then MalformedDetails else MalformedSlot
    ensures r.Success? ==> r.value.coupon == (if CouponKey in storage then storage[CouponKey] else "")
    ensures r.Success? ==> (r.value.discount.None? <==> Saved(storage, DiscountKey).None?)
  {
    var details :- LoadDetails(storage);
    var slot :- LoadSlot(storage);
    Success(OrderState(details, slot, LoadCoupon(storage), LoadDiscount(storage)))
  }

  // ---------------------------------------------------------------------------
  // What each update writes, and what a reload then reads
  // ---------------------------------------------------------------------------

  /** The table after `updateCoupon(code, discount)`: the code is always written; the
      discount is written when present and its key removed when null. */
  function CouponWrite(storage: map<string, string>, code: string, discount: Option<Num>): map<string, string>
  {
    match discount
    case Some(x) => storage[CouponKey := code][DiscountKey := EncodeNum(x)]
    case None => storage[CouponKey := code] - {DiscountKey}
  }

  /** Writing details reads back as those details and leaves the other three fields'
      readings as they were. */
  lemma DetailsWriteRoundTrip(storage: map<string, string>, d: SneakerDetails)
    ensures var m := storage[SneakerDetailsKey := EncodeDetails(d)];
      && LoadDetails(m) == Success(d)
      && LoadSlot(m) == LoadSlot(storage)
      && LoadCoupon(m) == LoadCoupon(storage)
      && LoadDiscount(m) == LoadDiscount(storage)
  {
    DetailsRoundTrip(d);
    assert EncodeDetails(d)[0] == '{';
  }

  /** Writing a slot reads back as that slot and leaves the other three fields'
      readings as they were. */
  lemma SlotWriteRoundTrip(storage: map<string, string>, p: PickupSlot)
    ensures var m := storage[PickupSlotKey := EncodeSlot(p)];
      && LoadSlot(m) == Success(Some(p))
      && LoadDetails(m) == LoadDetails(storage)
      && LoadCoupon(m) == LoadCoupon(storage)
      && LoadDiscount(m) == LoadDiscount(storage)
  {
    SlotRoundTrip(p);
    assert EncodeSlot(p)[0] == '{';
  }

  /** Writing a coupon reads back as the same code and discount (a null discount as
      null), and leaves the details and slot readings as they were. */
  lemma CouponWriteRoundTrip(storage: map<string, string>, code: string, discount: Option<Num>)
    ensures var m := CouponWrite(storage, code, discount);
      && LoadCoupon(m) == code
      && LoadDiscount(m) == discount
      && LoadDetails(m) == LoadDetails(storage)
      && LoadSlot(m) == LoadSlot(storage)
  {
    if discount.Some? {
      NumRoundTrip(discount.value);
    }
  }

  /** An absent key reads as its field's default. */
  lemma AbsentKeyDefaults(storage: map<string, string>)
    ensures SneakerDetailsKey !in storage ==> LoadDetails(storage) == Success(DefaultSneakerDetails)
    ensures PickupSlotKey !in storage ==> LoadSlot(storage) == Success(None)
    ensures CouponKey !in storage ==> LoadCoupon(storage) == ""
    ensures DiscountKey !in storage ==> LoadDiscount(storage) == None
  {
  }

  /** Once the four keys are removed, start-up yields the default state, whatever
      else the table holds. */
  lemma ClearedHydratesToDefault(storage: map<string, string>)
    ensures Hydrate(storage - StoreKeys) == Success(DefaultState)
  {
    AbsentKeyDefaults(storage - StoreKeys);
  }

  // ---------------------------------------------------------------------------
  // The store
  // ---------------------------------------------------------------------------

  /** The state held by `PickupProvider`, together with the storage table it writes. */
  class PickupStore {
    var sneakerDetails: SneakerDetails
    var pickupSlot: Option<PickupSlot>
    var coupon: string
    var discount: Option<Num>
    /** The browser's `localStorage` table, as seen by this page. */
    var storage: map<string, string>

    function State(): OrderState
      reads this
    {
      OrderState(sneakerDetails, pickupSlot, coupon, discount)
    }

    /** Storage mirrors memory: a reload would rebuild exactly the current state. */
    predicate Mirrored()
      reads this
    {
      Hydrate(storage) == Success(State())
    }

    /** A provider over the table `saved` whose initialisers have not run yet. */
    constructor (saved: map<string, string>)
      ensures storage == saved && State() == DefaultState
    {
      sneakerDetails := DefaultSneakerDetails;
      pickupSlot := None;
      coupon := "";
      discount := None;
      storage := saved;
    }

    /** Mounting `PickupProvider` over the table `saved`: the initialisers run and either
        give a store that mirrors the table or throw. */
    static method Mount(saved: map<string, string>) returns (r: Result<PickupStore, LoadError>)
      ensures r.Success? <==> Hydrate(saved).Success?
      ensures r.Success? ==>
        fresh(r.value) && r.value.storage == saved
        && r.value.State() == Hydrate(saved).value && r.value.Mirrored()
      ensures r.Failure? ==> r.error == Hydrate(saved).error
    {
      var store := new PickupStore(saved);
      var ok := store.Reload();
      if ok {
        r := Success(store);
      } else {
        r := Failure(Hydrate(saved).error);
      }
    }

    /** Re-runs the four initialisers over the current table, as a page reload does.
        When one throws, nothing is assigned. */
    method Reload() returns (ok: bool)
      modifies this
      ensures storage == old(storage)
      ensures ok <==> Hydrate(storage).Success?
      ensures ok ==> State() == Hydrate(storage).value && Mirrored()
      ensures !ok ==> State() == old(State())
    {
      var details := LoadDetails(storage);
      if details.Failure? {
        return false;
      }
      var slot := LoadSlot(storage);
      if slot.Failure? {
        return false;
      }
      sneakerDetails := details.value;
      pickupSlot := slot.value;
      coupon := LoadCoupon(storage);
      discount := LoadDiscount(storage);
      ok := true;
    }

    /** Replaces the details wholesale and writes them under their key only. */
    method UpdateSneakerDetails(details: SneakerDetails)
      modifies this
      ensures sneakerDetails == details
      ensures pickupSlot == old(pickupSlot) && coupon == old(coupon) && discount == old(discount)
      ensures storage == old(storage)[SneakerDetailsKey := EncodeDetails(details)]
      ensures LoadDetails(storage) == Success(details)
      ensures old(Mirrored()) ==> Mirrored()
    {
      DetailsWriteRoundTrip(storage, details);
      sneakerDetails := details;
      storage := storage[SneakerDetailsKey := EncodeDetails(details)];
    }

    /** Replaces the slot and writes it under its key only. */
    method UpdatePickupSlot(slot: PickupSlot)
      modifies this
      ensures pickupSlot == Some(slot)
      ensures sneakerDetails == old(sneakerDetails) && coupon == old(coupon) && discount == old(discount)
      ensures storage == old(storage)[PickupSlotKey := EncodeSlot(slot)]
      ensures LoadSlot(storage) == Success(Some(slot))
      ensures old(Mirrored()) ==> Mirrored()
    {
      SlotWriteRoundTrip(storage, slot);
      pickupSlot := Some(slot);
      storage := storage[PickupSlotKey := EncodeSlot(slot)];
    }

    /** Sets the coupon code and discount together; a null discount removes its key. */
    method UpdateCoupon(code: string, discountAmount: Option<Num>)
      modifies this
      ensures coupon == code && discount == discountAmount
      ensures sneakerDetails == old(sneakerDetails) && pickupSlot == old(pickupSlot)
      ensures storage == CouponWrite(old(storage), code, discountAmount)
      ensures LoadCoupon(storage) == code && LoadDiscount(storage) == discountAmount
      ensures old(Mirrored()) ==> Mirrored()
    {
      CouponWriteRoundTrip(storage, code, discountAmount);
      coupon := code;
      discount := discountAmount;
      storage := storage[CouponKey := code];
      if discountAmount.Some? {
        storage := storage[DiscountKey := EncodeNum(discountAmount.value)];
      } else {
        storage := storage - {DiscountKey};
      }
    }

    /** Restores all four fields to their defaults and removes all four keys, so the
        store mirrors the table afterwards whatever it held before. */
    method ResetState()
      modifies this
      ensures State() == DefaultState
      ensures storage == old(storage) - StoreKeys
      ensures Mirrored()
    {
      ClearedHydratesToDefault(storage);
      sneakerDetails := DefaultSneakerDetails;
      pickupSlot := None;
      coupon := "";
      discount := None;
      storage := storage - {SneakerDetailsKey};
      storage := storage - {PickupSlotKey};
      storage := storage - {CouponKey};
      storage := storage - {DiscountKey};
    }
  }

  /** `usePickup`: the store of the enclosing provider, or an error when there is none. */
  function UsePickup(provided: Option<PickupStore>): (r: Result<PickupStore, string>)
    ensures r.Success? <==> provided.Some?
    ensures r.Success? ==> r.value == provided.value
    ensures r.Failure? ==> r.error == ProviderMissing
  {
    match provided
    case Some(store) => Success(store)
    case None => Failure(ProviderMissing)
  }
}
