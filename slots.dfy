/** The slot-conflict rule of the booking page: when an existing entry (a
    pre-booked time or a stored booking) blocks a requested date, time and
    lane. Lanes are opaque strings; only the literal "full" is special, and a
    full booking blocks both halves of the lane. */
module Slots {

  /** The lane label that occupies the whole lane. */
  const FULL: string := "full"

  /** A pre-booked entry: date (YYYY-MM-DD), start time (HH:MM) and lane. */
  datatype Slot = Slot(date: string, time: string, lane: string)

  /** A stored booking record, as pushed into the page's `bookings` list
      and inserted into the store. */
  datatype Booking = Booking(
    date: string, time: string, lane: string,
    name: string, phone: string, email: string,
    club: string, gender: string, age: string)
  {
    function AsSlot(): Slot {
      Slot(date, time, lane)
    }
  }

  /** The lane part of the rule: the same lane, or either side is full. */
  predicate LanesClash(existing: string, requested: string) {
    existing == requested || existing == FULL || requested == FULL
  }

  /** Entry `e` collides with a request for `lane` at `date` and `time`. */
  predicate Collides(e: Slot, date: string, time: string, lane: string) {
    e.date == date && e.time == time && LanesClash(e.lane, lane)
  }

  /** `entries.some(b => Collides(b, ...))`: some entry collides. */
  function AnyCollides(entries: seq<Slot>, date: string, time: string, lane: string): (r: bool)
    ensures r <==> exists i :: 0 <= i < |entries| && Collides(entries[i], date, time, lane)
  {
    if entries == [] then false
    else Collides(entries[0], date, time, lane) || AnyCollides(entries[1..], date, time, lane)
  }

  function SlotsOf(bookings: seq<Booking>): seq<Slot> {
    seq(|bookings|, i requires 0 <= i < |bookings| => bookings[i].AsSlot())
  }

  /** A request is blocked when a pre-booked entry or a stored booking
      collides with it; the calendar and the booking re-check both use this. */
  predicate Blocked(preBooked: seq<Slot>, bookings: seq<Booking>, date: string, time: string, lane: string) {
    AnyCollides(preBooked, date, time, lane) || AnyCollides(SlotsOf(bookings), date, time, lane)
  }

  /** The stored bookings never collide with each other nor with a
      pre-booked entry: each booking was free when it was admitted. */
  ghost predicate Settled(preBooked: seq<Slot>, bookings: seq<Booking>) {
    && (forall i, j :: 0 <= i < j < |bookings| ==>
          !Collides(bookings[i].AsSlot(), bookings[j].date, bookings[j].time, bookings[j].lane))
    && (forall j :: 0 <= j < |bookings| ==>
          !AnyCollides(preBooked, bookings[j].date, bookings[j].time, bookings[j].lane))
  }

  /** Swapping the two lanes gives the same answer. */
  lemma LanesClashSymmetric(a: string, b: string)
    ensures LanesClash(a, b) == LanesClash(b, a)
  {
  }

  /** The whole rule is symmetric in the two entries. */
  lemma CollidesSymmetric(a: Slot, b: Slot)
    ensures Collides(a, b.date, b.time, b.lane) == Collides(b, a.date, a.time, a.lane)
  {
  }

  /** At the same date and time a full entry blocks every request, and a full
      request is blocked by every entry. */
  lemma FullBlocksEverything(date: string, time: string, lane: string)
    ensures Collides(Slot(date, time, FULL), date, time, lane)
    ensures Collides(Slot(date, time, lane), date, time, FULL)
  {
  }

  /** Entries at another date or time never collide, and two different
      halves of the same slot coexist. */
  lemma DistinctHalvesCoexist(e: Slot, date: string, time: string, lane: string)
    ensures e.date != date || e.time != time ==> !Collides(e, date, time, lane)
    ensures e.lane != lane && e.lane != FULL && lane != FULL ==> !Collides(e, date, time, lane)
  {
  }

  /** A full entry anywhere in the list blocks every lane of its slot, and a
      full request is blocked by any entry at its slot. */
  lemma FullEntryBlocksList(entries: seq<Slot>, k: nat, lane: string)
    requires k < |entries|
    ensures entries[k].lane == FULL ==> AnyCollides(entries, entries[k].date, entries[k].time, lane)
    ensures AnyCollides(entries, entries[k].date, entries[k].time, FULL)
  {
  }

  /** Only entries of the requested date and time matter: a list whose
      entries all lie at other slots blocks nothing. */
  lemma OtherSlotsNeverBlock(entries: seq<Slot>, date: string, time: string, lane: string)
    requires forall i :: 0 <= i < |entries| ==> entries[i].date != date || entries[i].time != time
    ensures !AnyCollides(entries, date, time, lane)
  {
  }

  /** Appending a booking that is not blocked keeps the list settled. */
  lemma AppendKeepsSettled(preBooked: seq<Slot>, bookings: seq<Booking>, b: Booking)
    requires Settled(preBooked, bookings)
    requires !Blocked(preBooked, bookings, b.date, b.time, b.lane)
    ensures Settled(preBooked, bookings + [b])
  {
    var ext := bookings + [b];
    forall i, j | 0 <= i < j < |ext|
      ensures !Collides(ext[i].AsSlot(), ext[j].date, ext[j].time, ext[j].lane)
    {
      if j == |bookings| {
        assert SlotsOf(bookings)[i] == ext[i].AsSlot();
      }
    }
  }

  /** In a settled list no two distinct bookings collide, in either order. */
  lemma SettledPairwiseFree(preBooked: seq<Slot>, bookings: seq<Booking>, i: nat, j: nat)
    requires Settled(preBooked, bookings)
    requires i < |bookings| && j < |bookings| && i != j
    ensures !Collides(bookings[i].AsSlot(), bookings[j].date, bookings[j].time, bookings[j].lane)
  {
  }
}
