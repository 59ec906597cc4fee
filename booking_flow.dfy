/** The three steps run in order against one store: enter details, pick a slot,
    review and confirm. */
module BookingFlow {
  import opened PickupTypes
  import opened PickupContext
  import opened ReviewConfirm
  import opened PickupDetailsForm
  import opened SlotSelection
  import Codec

  lemma WritesThenClear(m: map<string, string>, details: string, slot: string)
    ensures m[SneakerDetailsKey := details][PickupSlotKey := slot] - StoreKeys == m - StoreKeys
  {
  }

  /** The first step: the form is filled in with the given texts and submitted. */
  method EnterDetails(store: PickupStore,
                      sneakerType: string, condition: string, issue: string, notes: string)
    modifies store
    ensures store.sneakerDetails == old(store.sneakerDetails).(sneakerType := sneakerType,
      condition := condition, issue := issue, notes := notes)
    ensures store.pickupSlot == old(store.pickupSlot)
    ensures store.coupon == old(store.coupon) && store.discount == old(store.discount)
    ensures store.storage == old(store.storage)[SneakerDetailsKey := Codec.EncodeDetails(store.sneakerDetails)]
  {
    var form := new DetailsForm(store);
    form.Edit(sneakerType, condition, issue, notes);
    var _ := form.HandleSubmit();
  }

  /** The second step: open slot `k` of day `j` is picked and the page continues. */
  method ChooseSlot(store: PickupStore,
                    isoDate: int -> string, longDate: int -> string,
                    today: int, thirdOpen: seq<bool>, j: int, k: int)
    requires |thirdOpen| == DayCount && Injective(isoDate)
    requires 0 <= j < DayCount && 0 <= k < 2
    modifies store
    ensures store.sneakerDetails == old(store.sneakerDetails)
    ensures store.pickupSlot == Some(PickupSlot(longDate(today + j + 1), SlotTimes[k]))
    ensures store.coupon == old(store.coupon) && store.discount == old(store.discount)
    ensures store.storage == old(store.storage)[PickupSlotKey := Codec.EncodeSlot(store.pickupSlot.value)]
  {
    var date := today + j + 1;
    var id := SlotId(isoDate(date), k + 1);
    OpenSlotListed(today, isoDate, thirdOpen, j, k);
    var page := new SlotPage(store, isoDate, longDate, today, thirdOpen);
    page.HandleDateSelect(date);
    page.HandleSlotSelect(id, SlotTimes[k]);
    assert Truthy(id) && Truthy(SlotTimes[k]);
    var moved := page.HandleContinue();
    assert moved.Some?;
  }

  /** The first two steps on a mounted store: submit the given details, then pick
      open slot `k` of day `j` and continue. The review page then shows the submitted
      details and the chosen date and time instead of redirecting. */
  method DetailsThenSlot(store: PickupStore,
                         isoDate: int -> string, longDate: int -> string,
                         today: int, thirdOpen: seq<bool>,
                         sneakerType: string, condition: string, issue: string, notes: string,
                         j: int, k: int)
    requires |thirdOpen| == DayCount && Injective(isoDate)
    requires 0 <= j < DayCount && 0 <= k < 2
    requires sneakerType != "" && condition != "" && issue != ""
    requires longDate(today + j + 1) != ""
    modifies store
    ensures store.sneakerDetails == old(store.sneakerDetails).(sneakerType := sneakerType,
      condition := condition, issue := issue, notes := notes)
    ensures store.pickupSlot == Some(PickupSlot(longDate(today + j + 1), SlotTimes[k]))
    ensures store.coupon == old(store.coupon) && store.discount == old(store.discount)
    ensures store.storage == old(store.storage)
      [SneakerDetailsKey := Codec.EncodeDetails(store.sneakerDetails)]
      [PickupSlotKey := Codec.EncodeSlot(store.pickupSlot.value)]
    ensures EntryStep(store.State()) == ReviewStep
  {
    EnterDetails(store, sneakerType, condition, issue, notes);
    ChooseSlot(store, isoDate, longDate, today, thirdOpen, j, k);
  }

  /** A whole visit: the store is mounted over `saved`, the first two steps are
      completed, the review page is shown (not a redirect) and the order confirmed.
      Afterwards none of the four keys is left and a reload yields the defaults. */
  method PickupVisit(saved: map<string, string>,
                     isoDate: int -> string, longDate: int -> string,
                     today: int, thirdOpen: seq<bool>,
                     sneakerType: string, condition: string, issue: string, notes: string,
                     j: int, k: int)
    returns (reviewed: OrderState, reviewStep: Step, finalStorage: map<string, string>)
    requires Hydrate(saved).Success?
    requires |thirdOpen| == DayCount && Injective(isoDate)
    requires 0 <= j < DayCount && 0 <= k < 2
    requires sneakerType != "" && condition != "" && issue != ""
    requires longDate(today + j + 1) != ""
    ensures reviewStep == ReviewStep
    ensures reviewed.sneakerDetails.sneakerType == sneakerType
    ensures reviewed.sneakerDetails.condition == condition
    ensures reviewed.sneakerDetails.issue == issue
    ensures reviewed.sneakerDetails.notes == notes
    ensures reviewed.pickupSlot == Some(PickupSlot(longDate(today + j + 1), SlotTimes[k]))
    ensures finalStorage.Keys !! StoreKeys
    ensures finalStorage == saved - StoreKeys
    ensures Hydrate(finalStorage) == Success(DefaultState)
  {
    var mounted := PickupStore.Mount(saved);
    var store := mounted.value;
    DetailsThenSlot(store, isoDate, longDate, today, thirdOpen,
                    sneakerType, condition, issue, notes, j, k);
    reviewed := store.State();
    reviewStep := EntryStep(reviewed);
    var review := new ReviewPage(store);
    var _ := review.HandleConfirm();
    finalStorage := store.storage;
    ClearedHydratesToDefault(saved);
    WritesThenClear(saved, Codec.EncodeDetails(reviewed.sneakerDetails),
                    Codec.EncodeSlot(reviewed.pickupSlot.value));
  }
}
