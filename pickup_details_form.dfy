/** The first step: a form whose fields start as copies of the stored details, an
    image list capped at three entries, and a submit that replaces the stored details
    wholesale. An image payload is an opaque string; reading a selected file yields a
    payload or nothing. */
module PickupDetailsForm {
  import opened PickupTypes
  import opened PickupContext

  const MaxImages := 3

  function Min(a: int, b: int): int { if a <= b then a else b }

  function Max(a: int, b: int): int { if a <= b then b else a }

  // ---------------------------------------------------------------------------
  // Adding a batch of images
  // ---------------------------------------------------------------------------

  /** The read of one file produced a usable (truthy) result. */
  predicate ReadOk(r: Option<string>) { r.Some? && Truthy(r.value) }

  /** The payloads of the successful reads, in order. */
  function Payloads(results: seq<Option<string>>): seq<string>
    decreases |results|
  {
    if results == [] then []
    else
      var last := results[|results| - 1];
      Payloads(results[..|results| - 1]) + (if ReadOk(last) then [last.value] else [])
  }

  predicate AllReadsOk(results: seq<Option<string>>)
  {
    forall i :: 0 <= i < |results| ==> ReadOk(results[i])
  }

  /** The files actually read: at most as many as there is room for. */
  function Batch(images: seq<string>, results: seq<Option<string>>): seq<Option<string>>
    requires |images| < MaxImages
  {
    results[..Min(|results|, MaxImages - |images|)]
  }

  /** The image list after selecting files whose reads give `results`: unchanged when
      the list is full; otherwise the payloads of the first files that fit are
      appended, provided every one of them was read. */
  function WithBatch(images: seq<string>, results: seq<Option<string>>): seq<string>
  {
    if |images| >= MaxImages then images
    else if AllReadsOk(Batch(images, results)) then images + Payloads(Batch(images, results))
    else images
  }

  /** At most one payload per read, and one per read exactly when every read succeeded. */
  lemma {:induction false} PayloadsCount(results: seq<Option<string>>)
    ensures |Payloads(results)| <= |results|
    ensures |Payloads(results)| == |results| <==> AllReadsOk(results)
    decreases |results|
  {
    if results != [] {
      var init := results[..|results| - 1];
      PayloadsCount(init);
      if AllReadsOk(results) {
        assert AllReadsOk(init);
      }
      if AllReadsOk(init) && ReadOk(results[|results| - 1]) {
        assert AllReadsOk(results);
      }
    }
  }

  /** When every read succeeds the payloads are the read results themselves. */
  lemma {:induction false} PayloadsAllOk(results: seq<Option<string>>)
    requires AllReadsOk(results)
    ensures |Payloads(results)| == |results|
    ensures forall i :: 0 <= i < |results| ==> Payloads(results)[i] == results[i].value
    decreases |results|
  {
    if results != [] {
      PayloadsAllOk(results[..|results| - 1]);
    }
  }

  /** A full list is never changed by adding files. */
  lemma AddToFullList(images: seq<string>, results: seq<Option<string>>)
    requires |images| >= MaxImages
    ensures WithBatch(images, results) == images
  {
  }

  /** Adding `n` files to `k < 3` images whose reads all succeed appends exactly
      min(n, 3 - k) payloads, in file order, after the existing images. */
  lemma AddAppendsWhatFits(images: seq<string>, results: seq<Option<string>>)
    requires |images| < MaxImages
    requires AllReadsOk(Batch(images, results))
    ensures var r := WithBatch(images, results);
      && |r| == |images| + Min(|results|, MaxImages - |images|)
      && r[..|images|] == images
      && forall j :: |images| <= j < |r| ==> r[j] == results[j - |images|].value
  {
    PayloadsAllOk(Batch(images, results));
  }

  /** One failed read among the files that fit leaves the list as it was. */
  lemma FailedReadKeepsList(images: seq<string>, results: seq<Option<string>>, i: int)
    requires |images| < MaxImages
    requires 0 <= i < Min(|results|, MaxImages - |images|) && !ReadOk(results[i])
    ensures WithBatch(images, results) == images
  {
    assert Batch(images, results)[i] == results[i];
  }

  /** Adding never takes the list past three images; a list already longer (from
      stored data) is left as it was. */
  lemma AddBound(images: seq<string>, results: seq<Option<string>>)
    ensures |WithBatch(images, results)| <= MaxImages || WithBatch(images, results) == images
    ensures images <= WithBatch(images, results)
  {
    if |images| < MaxImages {
      PayloadsCount(Batch(images, results));
    }
  }

  // ---------------------------------------------------------------------------
  // Removing an image
  // ---------------------------------------------------------------------------

  /** `splice(start, 1)` on a copy: a negative start counts from the end, and a start
      past the end removes nothing. */
  function SpliceOne(images: seq<string>, start: int): seq<string>
  {
    var k := if start < 0 then Max(|images| + start, 0) else Min(start, |images|);
    if k < |images| then images[..k] + images[k + 1..] else images
  }

  /** Removing a valid index drops exactly that image and keeps the others in order. */
  lemma RemoveValidIndex(images: seq<string>, i: int)
    requires 0 <= i < |images|
    ensures var r := SpliceOne(images, i);
      && |r| == |images| - 1
      && r[..i] == images[..i]
      && forall j :: i <= j < |r| ==> r[j] == images[j + 1]
  {
  }

  // ---------------------------------------------------------------------------
  // The form
  // ---------------------------------------------------------------------------

  class DetailsForm {
    const store: PickupStore
    var sneakerType: string
    var condition: string
    var issue: string
    var notes: string
    var images: seq<string>

    function Entered(): SneakerDetails
      reads this
    {
      SneakerDetails(sneakerType, condition, issue, notes, images)
    }

    /** The fields start as copies of the stored details. */
    constructor (store: PickupStore)
      ensures this.store == store
      ensures Entered() == store.sneakerDetails
    {
      this.store := store;
      sneakerType := store.sneakerDetails.sneakerType;
      condition := store.sneakerDetails.condition;
      issue := store.sneakerDetails.issue;
      notes := store.sneakerDetails.notes;
      images := store.sneakerDetails.images;
    }

    /** Editing the four text fields. */
    method Edit(sneakerType: string, condition: string, issue: string, notes: string)
      modifies this`sneakerType, this`condition, this`issue, this`notes
      ensures Entered() == SneakerDetails(sneakerType, condition, issue, notes, images)
    {
      this.sneakerType := sneakerType;
      this.condition := condition;
      this.issue := issue;
      this.notes := notes;
    }

    /** `addNewImages`: the files that fit are read one by one; each usable result is
        pushed, and the list is replaced once as many results as files arrived. */
    method AddNewImages(results: seq<Option<string>>)
      modifies this`images
      ensures images == WithBatch(old(images), results)
    {
      if |images| >= MaxImages {
        return;
      }
      var base := images;
      var batch := results[..Min(|results|, MaxImages - |images|)];
      var target := Min(|results|, MaxImages - |images|);
      var newImages: seq<string> := [];
      var i := 0;
      while i < |batch|
        invariant 0 <= i <= |batch| == target
        invariant newImages == Payloads(batch[..i])
        invariant |newImages| <= i
        invariant images == if |newImages| == target then base + newImages else base
      {
        assert batch[..i + 1][..i] == batch[..i];
        var r := batch[i];
        if ReadOk(r) {
          newImages := newImages + [r.value];
          if |newImages| == target {
            images := base + newImages;
          }
        }
        i := i + 1;
      }
      assert batch[..i] == batch;
      PayloadsCount(batch);
    }

    /** `removeImage`. */
    method RemoveImage(index: int)
      modifies this`images
      ensures images == SpliceOne(old(images), index)
    {
      images := SpliceOne(images, index);
    }

    /** `handleSubmit`: the five fields replace the stored details wholesale. */
    method HandleSubmit() returns (next: Step)
      modifies store
      ensures next == SlotsStep
      ensures store.sneakerDetails == Entered()
      ensures store.pickupSlot == old(store.pickupSlot)
      ensures store.coupon == old(store.coupon) && store.discount == old(store.discount)
      ensures store.storage == old(store.storage)[SneakerDetailsKey := Codec.EncodeDetails(Entered())]
      ensures old(store.Mirrored()) ==> store.Mirrored()
    {
      store.UpdateSneakerDetails(Entered());
      next := SlotsStep;
    }
  }
}
