# Sneaker pickup booking flow, modelled in Dafny

The application is a three-step booking form for a sneaker-cleaning pickup: enter the
sneaker details (type, condition, issue, notes, up to three photos), choose one of the
time slots offered on the next three days, then review the order, optionally apply a
coupon, and confirm.

What carries behaviour, and what this project models:

- **The persisted pickup store** (`PickupContext`). It holds four fields: sneaker
  details, pickup slot, coupon code and discount. Every update writes through to the
  browser's string key-value storage, one key per field. At start-up each field is
  rebuilt from its key, and an absent or empty key means the field's default.
  `PickupStore` is a class with the four fields and the storage table as a
  `map<string, string>`. `Mount` and `Reload` run the four initialisers. Each update
  method says exactly which fields and keys it changes. All of them keep the
  invariant `Mirrored()`: a reload would rebuild exactly the in-memory state.
- **The stored text forms** (`Codec`). The details and the slot are stored as JSON
  (`JSON.stringify`), and the discount as a numeral (`toString`, read back with
  `Number`). The model uses concrete encoders and strict readers, and proves that
  each one round-trips.
- **The review step** (`ReviewConfirm`): the prerequisite guard, the coupon rule, the
  price rule in cents, and confirmation, which resets the store.
- **The details step** (`PickupDetailsForm`): the form fields copied from the store,
  the capped image append, image removal, and the wholesale submit.
- **The slot step** (`SlotSelection`): the loop that builds the three-day slot table,
  and the selected date, slot and time changed by the three handlers.
- **A whole visit** (`BookingFlow`): the three steps run in order against one store.

Modelling choices:
- A date is an integer day number, and `addDays` is addition. The two `date-fns`
  formats are functions the slot page is given. The slot-id distinctness lemma
  assumes that the `yyyy-MM-dd` format is injective.
- Whether a day's third slot is open comes from `Math.random() > 0.3` in the
  application. Here it is an input (`thirdOpen`).
- Reading an image file gives an opaque payload or nothing (`Option<string>`).
- The discount is `Option<Num>`, where `Num` is an integer or NaN. `Number` of text
  that is not a numeral gives NaN. NaN, 0 and null are all falsy in the price rule.
- Navigation is a returned `Step` value (`DetailsStep`, `SlotsStep`, `ReviewStep`).
- A malformed stored details or slot value is not replaced by defaults. `JSON.parse`
  throws in the initialiser (context/pickup-context.tsx:44, 52) and the provider does
  not mount. `Hydrate` returns a `LoadError`, `Mount` returns `Failure`, and `Reload`
  returns `false`.

## Model

| member | source | states |
|---|---|---|
| Codec.StringRoundTrip | context/pickup-context.tsx:74 | a string written as a JSON string literal reads back as the same string, and the text after it is left unread |
| Codec.ArrayRoundTrip | context/pickup-context.tsx:74 | the image list written as a JSON array reads back as the same strings in the same order |
| Codec.DetailsRoundTrip | context/pickup-context.tsx:44 | parsing the stored JSON of any details gives back those details |
| Codec.SlotRoundTrip | context/pickup-context.tsx:52 | parsing the stored JSON of any slot gives back that slot |
| Codec.NatToDecimal | context/pickup-context.tsx:87 | the numeral of a number is non-empty and made only of digits |
| Codec.IntDecimalRoundTrip | context/pickup-context.tsx:87 | `Number` of an integer's `toString` is that integer, negative ones included |
| Codec.NumRoundTrip | context/pickup-context.tsx:67 | `Number(x.toString())` is `x`, NaN included, and the text is never empty, so it is never read as "nothing saved" |
| PickupContext.DetailsWriteRoundTrip | context/pickup-context.tsx:72-75 | after the details key is written, the details read back as the written details, and the slot, coupon and discount read back as before |
| PickupContext.SlotWriteRoundTrip | context/pickup-context.tsx:77-80 | after the slot key is written, the slot reads back as written, and the other three fields read back as before |
| PickupContext.CouponWriteRoundTrip | context/pickup-context.tsx:82-91 | after a coupon write, the code reads back as written and the discount as given (null when its key was removed), and the details and slot read back as before |
| PickupContext.AbsentKeyDefaults | context/pickup-context.tsx:40-70 | an absent key reads as its field's default: empty details, null slot, empty coupon, null discount |
| PickupContext.ClearedHydratesToDefault | context/pickup-context.tsx:93-102 | once the four keys are removed, start-up yields the default state, whatever else the table holds |
| PickupContext.Hydrate | context/pickup-context.tsx:40-70 | start-up fails exactly when a saved details or slot text does not parse, reporting the details first; otherwise the coupon is the saved text or empty, and the discount is null exactly when nothing is saved under its key |
| PickupContext.PickupStore.Mount | context/pickup-context.tsx:39-70 | mounting succeeds exactly when no initialiser throws; the new store holds what the initialisers read and mirrors the table |
| PickupContext.PickupStore.Reload | context/pickup-context.tsx:40-70 | re-running the initialisers leaves the table alone; it yields the state the table holds, or reports the throw and assigns nothing |
| PickupContext.PickupStore.UpdateSneakerDetails | context/pickup-context.tsx:72-75 | the details become `details`; only their key is written; the other fields are unchanged; a reload gives `details`; the mirror invariant is kept |
| PickupContext.PickupStore.UpdatePickupSlot | context/pickup-context.tsx:77-80 | the slot becomes `slot`; only its key is written; details, coupon and discount are unchanged; the mirror invariant is kept |
| PickupContext.PickupStore.UpdateCoupon | context/pickup-context.tsx:82-91 | code and discount are set together; the code key is always written; the discount key is written when the discount is present and removed when it is null; details and slot are unchanged; the mirror invariant is kept |
| PickupContext.PickupStore.ResetState | context/pickup-context.tsx:93-102 | all four fields become defaults and exactly the four keys are removed, so the store mirrors the table whatever the prior state |
| PickupContext.UsePickup | context/pickup-context.tsx:122-127 | gives the provider's store exactly when there is one, and otherwise fails with the provider-missing message |
| ReviewConfirm.EntryStepIff | components/review-confirm.tsx:21-32 | review is shown exactly when type, condition, issue, slot date and slot time are all non-empty, and otherwise the page redirects to the first step; the default state redirects |
| ReviewConfirm.CouponRule | components/review-confirm.tsx:34-50 | an input is accepted exactly when it spells CLEAN10 in any letter case, and then the raw input is kept with 10 percent; empty input is not applied; any other input is rejected with "Invalid coupon code" |
| ReviewConfirm.DiscountCents | components/review-confirm.tsx:71 | no discount (null, NaN or 0) takes nothing off; a percentage within 0..100 takes off between 0 and 25 dollars |
| ReviewConfirm.PriceRule | components/review-confirm.tsx:69-72 | the discount is exactly d percent of 25 dollars; total plus discount is 25 dollars; the total stays within 0..25 for d within 0..100; 10 percent gives 22.50 and no discount gives 25.00 |
| ReviewConfirm.ReviewPage.constructor | components/review-confirm.tsx:16-18 | the coupon field starts with the stored code, with no error shown |
| ReviewConfirm.ReviewPage.ChangeCouponInput | components/review-confirm.tsx:152 | typing sets the coupon field |
| ReviewConfirm.ReviewPage.HandleApplyCoupon | components/review-confirm.tsx:34-50 | empty input changes nothing; an accepted code clears the error and stores the raw code with 10 percent through `updateCoupon`; a rejected code sets the error and leaves store and storage unchanged |
| ReviewConfirm.ReviewPage.HandleConfirm | components/review-confirm.tsx:52-67 | confirming resets the store, removes the four keys and returns to the first step, where the guard now redirects |
| PickupDetailsForm.PayloadsCount | components/pickup-details-form.tsx:56-62 | a batch yields at most one image per file read, and yields one per file exactly when every read produced a result |
| PickupDetailsForm.PayloadsAllOk | components/pickup-details-form.tsx:57-60 | when every read succeeds, the images pushed are the read results, in file order |
| PickupDetailsForm.AddToFullList | components/pickup-details-form.tsx:48 | adding files to a list that already holds 3 or more images changes nothing |
| PickupDetailsForm.AddAppendsWhatFits | components/pickup-details-form.tsx:52-60 | adding n successfully read files to k < 3 images appends exactly min(n, 3 - k) images and keeps the existing k as a prefix |
| PickupDetailsForm.FailedReadKeepsList | components/pickup-details-form.tsx:57-60 | if one read among the files that fit gives no result, the count is never reached and the list is not replaced |
| PickupDetailsForm.AddBound | components/pickup-details-form.tsx:47-66 | an add never takes the list past 3 images (a longer stored list is left as it is) and always keeps the old list as a prefix |
| PickupDetailsForm.RemoveValidIndex | components/pickup-details-form.tsx:68-72 | removing a valid index drops exactly that image, keeps the others in order, and shortens the list by one |
| PickupDetailsForm.DetailsForm.constructor | components/pickup-details-form.tsx:33-37 | the five form fields start as copies of the stored details |
| PickupDetailsForm.DetailsForm.Edit | components/pickup-details-form.tsx:114-155 | editing sets the four text fields and leaves the images alone |
| PickupDetailsForm.DetailsForm.AddNewImages | components/pickup-details-form.tsx:47-66 | the push loop ends with the image list equal to `WithBatch`, the capped all-or-nothing append that the lemmas above describe |
| PickupDetailsForm.DetailsForm.RemoveImage | components/pickup-details-form.tsx:68-72 | the list becomes the copy with `splice(index, 1)` applied, including its handling of negative and out-of-range indexes |
| PickupDetailsForm.DetailsForm.HandleSubmit | components/pickup-details-form.tsx:92-106 | the five fields replace the stored details wholesale; slot and coupon are unchanged; the mirror invariant is kept; the next step is slot selection |
| SlotSelection.BuildDays | components/slot-selection.tsx:31-48 | the loop builds exactly the three-day table `DayTable` |
| SlotSelection.TableShape | components/slot-selection.tsx:36-45 | the table has 3 days, 1 to 3 days after today, each with 3 slots at the fixed times; the first two slots are open and the third as drawn; ids are `<day key>-1`, `-2`, `-3` |
| SlotSelection.SlotIdInjective | components/slot-selection.tsx:41-43 | two slot ids are equal exactly when their day keys and slot numbers are |
| SlotSelection.SlotIdsDistinct | components/slot-selection.tsx:41-43 | with an injective day key, no two slots of the table share an id |
| SlotSelection.FindDay | components/slot-selection.tsx:105-108 | the day found is the first one in the list with the searched key; when none is found, no day has that key |
| SlotSelection.FindDayInTable | components/slot-selection.tsx:105-108 | selecting a day of the table lists exactly that day's slots |
| SlotSelection.OpenSlotListed | components/slot-selection.tsx:105-112 | the first two slots of any day are listed, open, under that day |
| SlotSelection.TableLabelled | components/slot-selection.tsx:41-43 | every slot of the table has a non-empty id and a non-empty time |
| SlotSelection.SlotPage.constructor | components/slot-selection.tsx:26-50 | on mount the table is built, the first day is selected, no slot or time is selected, and the page invariant holds |
| SlotSelection.SlotPage.HandleDateSelect | components/slot-selection.tsx:52-57 | selecting a date clears both the slot and the time |
| SlotSelection.SlotPage.HandleSlotSelect | components/slot-selection.tsx:59-62 | slot and time are set together, only to an open slot listed under the selected date |
| SlotSelection.SlotPage.HandleContinue | components/slot-selection.tsx:64-75 | nothing is stored unless date, slot and time are all set; otherwise the display date and time become the stored slot and the page moves to review; on a valid page it moves exactly when a slot is selected |
| BookingFlow.DetailsThenSlot | app/layout.tsx:20-26 | on one shared store, submitting non-empty details and then choosing an open slot leaves a state that the review guard accepts |
| BookingFlow.PickupVisit | app/layout.tsx:20-26 | a whole visit shows the review page with the submitted details, date and time; after confirming, none of the four keys is left and a reload yields the defaults |

## Left out

- Storage errors are not modelled: `setItem` and `getItem` always succeed in the model. In the browser `setItem` can throw (quota exceeded, for instance with three photo data URLs in the details, or a security error). The state setter has then already run, so memory and storage disagree and the following navigation is skipped.
- PickupDetailsForm.DetailsForm.HandleSubmit submits any field values. In the browser the `required` attributes on type, condition and issue (components/pickup-details-form.tsx:115, 131, 152) block submitting them empty.
- Rendering, styling, `alert`, `console.log`, the drag highlight (`isDragging`) and `router.push`. Navigation is only a returned `Step` value.
- The server-side branches (`typeof window === "undefined"`). The model is always on the client.
- Codec.DecodeDetails and Codec.DecodeSlot accept the text `JSON.stringify` writes and, inside strings, also `\/`, upper-case hex digits and any `\u00XX` escape. Other forms that `JSON.parse` would accept count as malformed and fail start-up: reordered keys, whitespace, `\uXXXX` escapes above U+00FF, or another JSON shape (`null`, a number). In the source such a value would load unchecked.
- Codec.DecodeNum reads only an optional `-` followed by decimal digits. Other numerals that `Number` accepts (fractions, exponents, hexadecimal, surrounding spaces, `Infinity`) read as NaN. Discounts are integers or NaN, and floating point is not modelled.
- Lone UTF-16 surrogates and their `\ud800`-style escapes do not exist here, because Dafny characters are Unicode scalar values.
- ReviewConfirm.UpperChar maps only ASCII `a`-`z`. Unicode case mappings outside ASCII, including ones that change the length, are not modelled.
- ReviewConfirm.ReviewPage.HandleApplyCoupon runs as one atomic step. The one-second `setTimeout` and the `isApplying` flag are left out, so input typed while a check is pending is not modelled.
- PickupContext.PickupStore.Reload: in the source, an initialiser that throws stops the provider from rendering at all. The model reports `false` and assigns nothing.
- PickupDetailsForm.DetailsForm.AddNewImages: `FileReader`, data-URL encoding and the order in which asynchronous reads complete are left out. Results are taken in file order. If two batches overlap, each closure sees the old list; this is not modelled.
- The null-`FileList` guards in `handleImageUpload` and `handleDrop`. The model always has a (possibly empty) list of read results.
- SlotSelection: the time-of-day part of `Date` objects. The `date-fns` formats are inputs, not calendar code.
- SlotSelection.SlotPage.constructor runs the mount effect at once. The first render, before the effect, has no table and no selected date, and is not modelled.
- SlotSelection.SlotPage.HandleSlotSelect requires an open slot listed under the selected date. In the source it can only be reached from those enabled buttons.
- The pages under `app/` only place the step components. `app/layout.tsx` wraps every page in the one provider, and `BookingFlow` stands for that.
- Price display (`toFixed(2)`). Prices are integer cents, which is exact here because 2500 · d / 100 = 25 · d.
