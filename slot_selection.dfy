/** The second step: a table of three days from tomorrow with three slots each, and
    the selected date, slot id and time that the page's handlers change.

    A date is a day number (days since a fixed origin); `addDays` is addition. The
    two date formats (`yyyy-MM-dd` for keys and ids, `EEEE, MMMM d` for display) are
    functions the page is given. Whether the third slot of a day is open comes from
    a random draw in the source; here it is an input. */
module SlotSelection {
  import opened PickupTypes
  import opened PickupContext
  import Codec

  datatype TimeSlot = TimeSlot(id: string, time: string, available: bool)

  datatype DaySlots = DaySlots(date: int, slots: seq<TimeSlot>)

  const DayCount := 3

  const SlotTimes: seq<string> := ["10 AM \U{2013} 12 PM", "12 PM \U{2013} 4 PM", "4 PM \U{2013} 8 PM"]

  /** `<date key>-<n>`. */
  function SlotId(dayKey: string, n: int): string
    requires 1 <= n <= 3
  {
    dayKey + "-" + [Codec.DigitChar(n)]
  }

  /** The three slots offered on `date`: the first two always open. */
  function DayOffer(date: int, isoDate: int -> string, thirdOpen: bool): DaySlots
  {
    var key := isoDate(date);
    DaySlots(date, [
      TimeSlot(SlotId(key, 1), SlotTimes[0], true),
      TimeSlot(SlotId(key, 2), SlotTimes[1], true),
      TimeSlot(SlotId(key, 3), SlotTimes[2], thirdOpen)])
  }

  /** The table the page builds on mount: days `today + 1` to `today + 3`. */
  function DayTable(today: int, isoDate: int -> string, thirdOpen: seq<bool>): seq<DaySlots>
    requires |thirdOpen| == DayCount
  {
    seq(DayCount, j requires 0 <= j < DayCount => DayOffer(today + j + 1, isoDate, thirdOpen[j]))
  }

  /** The `for` loop that pushes one entry per day. */
  method BuildDays(today: int, isoDate: int -> string, thirdOpen: seq<bool>) returns (days: seq<DaySlots>)
    requires |thirdOpen| == DayCount
    ensures days == DayTable(today, isoDate, thirdOpen)
  {
    days := [];
    for i := 1 to DayCount + 1
      invariant |days| == i - 1
      invariant forall j :: 0 <= j < |days| ==> days[j] == DayOffer(today + j + 1, isoDate, thirdOpen[j])
    {
      var date := today + i;
      var key := isoDate(date);
      days := days + [DaySlots(date, [
        TimeSlot(SlotId(key, 1), SlotTimes[0], true),
        TimeSlot(SlotId(key, 2), SlotTimes[1], true),
        TimeSlot(SlotId(key, 3), SlotTimes[2], thirdOpen[i - 1])])];
    }
  }

  /** The table has three days, one to three days after today, each with three slots
      at the fixed times; the first two are open and the third as drawn; the ids are
      the day's key followed by `-1`, `-2`, `-3`. */
  lemma TableShape(today: int, isoDate: int -> string, thirdOpen: seq<bool>)
    requires |thirdOpen| == DayCount
    ensures var t := DayTable(today, isoDate, thirdOpen);
      && |t| == 3
      && forall j :: 0 <= j < 3 ==>
        && t[j].date == today + j + 1
        && |t[j].slots| == 3
        && t[j].slots[0].available && t[j].slots[1].available
        && t[j].slots[2].available == thirdOpen[j]
        && (forall k :: 0 <= k < 3 ==> t[j].slots[k].time == SlotTimes[k])
        && (forall k :: 0 <= k < 3 ==> t[j].slots[k].id == isoDate(today + j + 1) + "-" + [Codec.DigitChar(k + 1)])
  {
  }

  lemma SlotIdInjective(key1: string, n1: int, key2: string, n2: int)
    requires 1 <= n1 <= 3 && 1 <= n2 <= 3
    ensures SlotId(key1, n1) == SlotId(key2, n2) <==> key1 == key2 && n1 == n2
  {
    if SlotId(key1, n1) == SlotId(key2, n2) {
      var s := SlotId(key1, n1);
      assert |key1| == |key2|;
      assert s[..|key1|] == key1 && SlotId(key2, n2)[..|key2|] == key2;
      assert s[|s| - 1] == Codec.DigitChar(n1) && SlotId(key2, n2)[|s| - 1] == Codec.DigitChar(n2);
    }
  }

  ghost predicate Injective(f: int -> string)
  {
    forall a, b :: f(a) == f(b) ==> a == b
  }

  /** With a date key that tells days apart, no two slots of the table share an id. */
  lemma SlotIdsDistinct(today: int, isoDate: int -> string, thirdOpen: seq<bool>)
    requires |thirdOpen| == DayCount
    requires Injective(isoDate)
    ensures var t := DayTable(today, isoDate, thirdOpen);
      forall j1, k1, j2, k2 ::
        (0 <= j1 < |t| && 0 <= k1 < |t[j1].slots| && 0 <= j2 < |t| && 0 <= k2 < |t[j2].slots|
         && t[j1].slots[k1].id == t[j2].slots[k2].id) ==> j1 == j2 && k1 == k2
  {
    var t := DayTable(today, isoDate, thirdOpen);
    forall j1, k1, j2, k2 |
      0 <= j1 < |t| && 0 <= k1 < |t[j1].slots| && 0 <= j2 < |t| && 0 <= k2 < |t[j2].slots|
      && t[j1].slots[k1].id == t[j2].slots[k2].id
      ensures j1 == j2 && k1 == k2
    {
      assert t[j1].slots[k1].id == SlotId(isoDate(today + j1 + 1), k1 + 1);
      assert t[j2].slots[k2].id == SlotId(isoDate(today + j2 + 1), k2 + 1);
      SlotIdInjective(isoDate(today + j1 + 1), k1 + 1, isoDate(today + j2 + 1), k2 + 1);
    }
  }

  /** `availableDays.find(...)`: the first day whose key is `key`. */
  function FindDay(days: seq<DaySlots>, isoDate: int -> string, key: string): (r: Option<DaySlots>)
    ensures r.Some? ==> r.value in days && isoDate(r.value.date) == key
    ensures r.Some? ==> exists i ::
      && 0 <= i < |days| && days[i] == r.value
      && (forall j :: 0 <= j < i ==> isoDate(days[j].date) != key)
    ensures r.None? ==> forall d :: d in days ==> isoDate(d.date) != key
    decreases |days|
  {
    if days == [] then None
    else if isoDate(days[0].date) == key then Some(days[0])
    else FindDay(days[1..], isoDate, key)
  }

  /** With a date key that tells days apart, selecting a day of the table shows
      exactly that day's slots. */
  lemma FindDayInTable(today: int, isoDate: int -> string, thirdOpen: seq<bool>, j: int)
    requires |thirdOpen| == DayCount && Injective(isoDate) && 0 <= j < DayCount
    ensures FindDay(DayTable(today, isoDate, thirdOpen), isoDate, isoDate(today + j + 1))
      == Some(DayTable(today, isoDate, thirdOpen)[j])
  {
    var t := DayTable(today, isoDate, thirdOpen);
    var r := FindDay(t, isoDate, isoDate(today + j + 1));
    assert t[j] in t;
    var i :| 0 <= i < |t| && t[i] == r.value;
    assert today + i + 1 == today + j + 1;
  }

  /** The first two slots of any day of the table are listed, open, when that day
      is selected. */
  lemma OpenSlotListed(today: int, isoDate: int -> string, thirdOpen: seq<bool>, j: int, k: int)
    requires |thirdOpen| == DayCount && Injective(isoDate) && 0 <= j < DayCount && 0 <= k < 2
    ensures var day := FindDay(DayTable(today, isoDate, thirdOpen), isoDate, isoDate(today + j + 1));
      day.Some? && TimeSlot(SlotId(isoDate(today + j + 1), k + 1), SlotTimes[k], true) in day.value.slots
  {
    FindDayInTable(today, isoDate, thirdOpen, j);
    assert DayTable(today, isoDate, thirdOpen)[j].slots[k]
      == TimeSlot(SlotId(isoDate(today + j + 1), k + 1), SlotTimes[k], true);
  }

  /** Every slot of `days` has a non-empty id and time. */
  predicate Labelled(days: seq<DaySlots>)
  {
    forall d, s :: d in days && s in d.slots ==> Truthy(s.id) && Truthy(s.time)
  }

  lemma TableLabelled(today: int, isoDate: int -> string, thirdOpen: seq<bool>)
    requires |thirdOpen| == DayCount
    ensures Labelled(DayTable(today, isoDate, thirdOpen))
  {
    var t := DayTable(today, isoDate, thirdOpen);
    forall d, s | d in t && s in d.slots ensures Truthy(s.id) && Truthy(s.time) {
      var j :| 0 <= j < |t| && t[j] == d;
      var k :| 0 <= k < |d.slots| && d.slots[k] == s;
      assert s.id == SlotId(isoDate(today + j + 1), k + 1);
    }
  }

  class SlotPage {
    const store: PickupStore
    const isoDate: int -> string
    const longDate: int -> string
    var selectedDate: Option<int>
    var selectedSlot: Option<string>
    var selectedTime: Option<string>
    var availableDays: seq<DaySlots>

    /** The slots listed under the selected date. */
    function ShownSlots(): seq<TimeSlot>
      reads this
    {
      match selectedDate
      case None => []
      case Some(date) =>
        match FindDay(availableDays, isoDate, isoDate(date))
        case Some(day) => day.slots
        case None => []
    }

    /** Slot and time are set together, and only to an open slot listed under the
        selected date. */
    ghost predicate Valid()
      reads this
    {
      && Labelled(availableDays)
      && (selectedSlot.None? <==> selectedTime.None?)
      && (selectedSlot.Some? ==> TimeSlot(selectedSlot.value, selectedTime.value, true) in ShownSlots())
    }

    /** Mounting the page: the table is built, the first day is selected, no slot or
        time is. */
    constructor (store: PickupStore, isoDate: int -> string, longDate: int -> string,
                 today: int, thirdOpen: seq<bool>)
      requires |thirdOpen| == DayCount
      ensures this.store == store && this.isoDate == isoDate && this.longDate == longDate
      ensures availableDays == DayTable(today, isoDate, thirdOpen)
      ensures selectedDate == Some(today + 1) && selectedSlot == None && selectedTime == None
      ensures Valid()
    {
      this.store := store;
      this.isoDate := isoDate;
      this.longDate := longDate;
      selectedSlot := None;
      selectedTime := None;
      var days := BuildDays(today, isoDate, thirdOpen);
      availableDays := days;
      selectedDate := Some(days[0].date);
      TableLabelled(today, isoDate, thirdOpen);
    }

    /** `handleDateSelect`: selects the date and clears slot and time. */
    method HandleDateSelect(date: int)
      requires Valid()
      modifies this`selectedDate, this`selectedSlot, this`selectedTime
      ensures selectedDate == Some(date) && selectedSlot == None && selectedTime == None
      ensures Valid()
    {
      selectedDate := Some(date);
      selectedSlot := None;
      selectedTime := None;
    }

    /** `handleSlotSelect`, reachable only from the enabled buttons listed under the
        selected date. */
    method HandleSlotSelect(slotId: string, time: string)
      requires Valid()
      requires TimeSlot(slotId, time, true) in ShownSlots()
      modifies this`selectedSlot, this`selectedTime
      ensures selectedSlot == Some(slotId) && selectedTime == Some(time)
      ensures Valid()
    {
      selectedSlot := Some(slotId);
      selectedTime := Some(time);
    }

    /** `handleContinue`: does nothing unless date, slot and time are all set; then
        stores the date (display format) and time as the pickup slot and moves on. On
        a valid page, it moves on exactly when a slot is selected. */
    method HandleContinue() returns (next: Option<Step>)
      modifies store
      ensures next.Some? <==>
        && selectedSlot.Some? && Truthy(selectedSlot.value)
        && selectedDate.Some?
        && selectedTime.Some? && Truthy(selectedTime.value)
      ensures Valid() ==> (next.Some? <==> selectedSlot.Some?)
      ensures next.Some? ==>
        && next.value == ReviewStep
        && store.State() == old(store.State()).(pickupSlot := Some(PickupSlot(longDate(selectedDate.value), selectedTime.value)))
        && store.storage == old(store.storage)[PickupSlotKey := Codec.EncodeSlot(PickupSlot(longDate(selectedDate.value), selectedTime.value))]
      ensures next.None? ==> store.State() == old(store.State()) && store.storage == old(store.storage)
      ensures old(store.Mirrored()) ==> store.Mirrored()
    {
      if selectedSlot.None? || !Truthy(selectedSlot.value) || selectedDate.None?
         || selectedTime.None? || !Truthy(selectedTime.value) {
        return None;
      }
      store.UpdatePickupSlot(PickupSlot(longDate(selectedDate.value), selectedTime.value));
      next := Some(ReviewStep);
    }
  }
}
