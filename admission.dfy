/** The booking-admission gate: the ordered checks a submitted form goes
    through before one booking record is appended. */
module Admission {
  import opened Text
  import opened Slots

  /** The raw values of the booking form. */
  datatype Form = Form(
    date: string, time: string, lane: string,
    name: string, phone: string, email: string,
    club: string, gender: string, age: string)

  /** What the message box reports after a submission. */
  datatype Outcome =
    | MissingSlot      // no date, time or lane chosen
    | MissingName      // the trimmed name is empty
    | MissingDetails   // phone, e-mail, club, gender or age is empty
    | Unavailable      // the slot is blocked by a pre-booking or a booking
    | SavedLocally     // no store client: kept in memory only
    | StoreError       // the store rejected the insert
    | Saved            // inserted into the store and kept in memory
  {
    predicate Accepted() {
      SavedLocally? || Saved?
    }
  }

  predicate SlotChosen(f: Form) {
    f.date != [] && f.time != [] && f.lane != []
  }

  predicate NameGiven(f: Form) {
    Trim(f.name) != []
  }

  /** Gender comes from a drop-down and is not trimmed; the rest are. */
  predicate DetailsGiven(f: Form) {
    Trim(f.phone) != [] && Trim(f.email) != [] && Trim(f.club) != []
    && f.gender != [] && Trim(f.age) != []
  }

  predicate Complete(f: Form) {
    SlotChosen(f) && NameGiven(f) && DetailsGiven(f)
  }

  /** The record stored for an admitted form, with trimmed text fields. */
  function Record(f: Form): Booking {
    Booking(f.date, f.time, f.lane, Trim(f.name), Trim(f.phone), Trim(f.email),
            Trim(f.club), f.gender, Trim(f.age))
  }

  /** The verdict on a submission, given the pre-booked entries, the stored
      bookings, whether a store client exists and whether its insert would
      succeed. */
  function Admit(f: Form, preBooked: seq<Slot>, bookings: seq<Booking>,
                 hasClient: bool, insertOk: bool): Outcome
  {
    if !SlotChosen(f) then MissingSlot
    else if !NameGiven(f) then MissingName
    else if !DetailsGiven(f) then MissingDetails
    else if Blocked(preBooked, bookings, f.date, f.time, f.lane) then Unavailable
    else if !hasClient then SavedLocally
    else if !insertOk then StoreError
    else Saved
  }

  /** The bookings list after a submission with outcome `o`. */
  function After(bookings: seq<Booking>, f: Form, o: Outcome): seq<Booking> {
    if o.Accepted() then bookings + [Record(f)] else bookings
  }

  /** The checks run in order, and each rejection names the first check that
      failed; a store failure is only possible with a client. */
  lemma OutcomeConditions(f: Form, preBooked: seq<Slot>, bookings: seq<Booking>,
                          hasClient: bool, insertOk: bool)
    ensures var o := Admit(f, preBooked, bookings, hasClient, insertOk);
      && (o == MissingSlot <==> !SlotChosen(f))
      && (o == MissingName <==> SlotChosen(f) && Trim(f.name) == [])
      && (o == MissingDetails <==> SlotChosen(f) && NameGiven(f) && !DetailsGiven(f))
      && (o == Unavailable <==> Complete(f) && Blocked(preBooked, bookings, f.date, f.time, f.lane))
      && (o == SavedLocally <==> Complete(f) && !Blocked(preBooked, bookings, f.date, f.time, f.lane) && !hasClient)
      && (o == StoreError <==> Complete(f) && !Blocked(preBooked, bookings, f.date, f.time, f.lane) && hasClient && !insertOk)
      && (o == Saved <==> Complete(f) && !Blocked(preBooked, bookings, f.date, f.time, f.lane) && hasClient && insertOk)
  {
  }

  /** A name of white space only is reported as missing. */
  lemma BlankNameIsMissing(f: Form, preBooked: seq<Slot>, bookings: seq<Booking>,
                           hasClient: bool, insertOk: bool)
    requires SlotChosen(f) && Blank(f.name)
    ensures Admit(f, preBooked, bookings, hasClient, insertOk) == MissingName
  {
    TrimEmptyIffBlank(f.name);
  }

  /** Rejections leave the list unchanged; an acceptance appends exactly one
      record, carrying the submitted fields, after the untouched old list. */
  lemma AfterChangesOnlyOnAcceptance(f: Form, preBooked: seq<Slot>, bookings: seq<Booking>,
                                     hasClient: bool, insertOk: bool)
    ensures var o := Admit(f, preBooked, bookings, hasClient, insertOk);
      var next := After(bookings, f, o);
      && (!o.Accepted() ==> next == bookings)
      && (o.Accepted() ==> |next| == |bookings| + 1 && next[..|bookings|] == bookings
                           && next[|bookings|] == Record(f))
  {
    var next := After(bookings, f, Admit(f, preBooked, bookings, hasClient, insertOk));
    if Admit(f, preBooked, bookings, hasClient, insertOk).Accepted() {
      assert next[..|bookings|] == bookings;
    }
  }

  /** Every admission keeps the stored bookings settled: free of mutual
      collisions and of collisions with the pre-booked entries. */
  lemma AdmitKeepsSettled(f: Form, preBooked: seq<Slot>, bookings: seq<Booking>,
                          hasClient: bool, insertOk: bool)
    requires Settled(preBooked, bookings)
    ensures Settled(preBooked, After(bookings, f, Admit(f, preBooked, bookings, hasClient, insertOk)))
  {
    if Admit(f, preBooked, bookings, hasClient, insertOk).Accepted() {
      AppendKeepsSettled(preBooked, bookings, Record(f));
    }
  }

  /** A stored full booking at the requested date and time, or a full
      request at a slot that already has any booking, is never admitted. */
  lemma FullSlotRejects(f: Form, preBooked: seq<Slot>, bookings: seq<Booking>,
                        hasClient: bool, insertOk: bool, k: nat)
    requires k < |bookings| && bookings[k].date == f.date && bookings[k].time == f.time
    requires bookings[k].lane == FULL || f.lane == FULL
    ensures !Admit(f, preBooked, bookings, hasClient, insertOk).Accepted()
  {
    assert SlotsOf(bookings)[k] == bookings[k].AsSlot();
    assert Collides(SlotsOf(bookings)[k], f.date, f.time, f.lane);
  }
}
