/** The booking page's module-level state and its three operations: loading
    the bookings of a date, rendering the calendar and handling a submission. */
module Page {
  import opened Text
  import opened Slots
  import opened Calendar
  import opened Admission

  /** What the store's query for one date returned. */
  datatype Fetch =
    | FetchFailed                        // the query reported an error
    | Fetched(rows: Option<seq<Booking>>) // the query's data, possibly null

  datatype Option<T> = None | Some(value: T)

  class BookingPage {
    /** The bookings known for the selected date. */
    var bookings: seq<Booking>
    /** The configured pre-booked entries. */
    const preBooked: seq<Slot>
    /** Whether a store client was configured. */
    const hasClient: bool

    constructor (preBooked: seq<Slot>, hasClient: bool)
      ensures this.preBooked == preBooked && this.hasClient == hasClient
      ensures bookings == []
    {
      this.preBooked := preBooked;
      this.hasClient := hasClient;
      bookings := [];
    }

    /** Replaces the bookings by the store's rows for the date; without a
        client, on an error, or when the data is null, the list is empty. */
    method LoadBookings(fetch: Fetch)
      modifies this
      ensures !hasClient ==> bookings == []
      ensures hasClient && fetch.FetchFailed? ==> bookings == []
      ensures hasClient && fetch == Fetched(None) ==> bookings == []
      ensures hasClient && fetch.Fetched? && fetch.rows.Some? ==> bookings == fetch.rows.value
    {
      if !hasClient {
        bookings := [];
        return;
      }
      match fetch
      case FetchFailed =>
        bookings := [];
      case Fetched(rows) =>
        bookings := if rows.Some? then rows.value else [];
    }

    /** Builds the calendar grid and the time drop-down for the page's
        fixed start times, `date` and `lane`. */
    method RenderCalendar(date: string, lane: string) returns (grid: seq<Cell>, options: seq<string>)
      ensures |grid| == |AVAILABLE_TIMES|
      ensures forall k :: 0 <= k < |grid| ==>
                grid[k].time == AVAILABLE_TIMES[k]
                && (grid[k].available <==> !Blocked(preBooked, bookings, date, AVAILABLE_TIMES[k], lane))
      ensures options == FreeTimes(AVAILABLE_TIMES, preBooked, bookings, date, lane)
      ensures forall t :: t in options <==> t in AVAILABLE_TIMES && !Blocked(preBooked, bookings, date, t, lane)
      ensures Distinct(options)
    {
      grid, options := RenderTimes(AVAILABLE_TIMES, date, lane);
      OfferedTimesDistinct(preBooked, bookings, date, lane);
    }

    /** The loop of the calendar view over a schedule `times`: one cell per
        start time, marked available exactly when nothing blocks it, and the
        available times, in order, as drop-down options. */
    method RenderTimes(times: seq<string>, date: string, lane: string) returns (grid: seq<Cell>, options: seq<string>)
      ensures |grid| == |times|
      ensures forall k :: 0 <= k < |grid| ==>
                grid[k].time == times[k]
                && (grid[k].available <==> !Blocked(preBooked, bookings, date, times[k], lane))
      ensures options == FreeTimes(times, preBooked, bookings, date, lane)
    {
      grid, options := [], [];
      var i := 0;
      while i < |times|
        invariant 0 <= i <= |times|
        invariant |grid| == i
        invariant forall k :: 0 <= k < i ==>
                    grid[k].time == times[k]
                    && (grid[k].available <==> !Blocked(preBooked, bookings, date, times[k], lane))
        invariant options == FreeTimes(times[..i], preBooked, bookings, date, lane)
      {
        var time := times[i];
        var isPreBooked := AnyCollides(preBooked, date, time, lane);
        var isBooked := AnyCollides(SlotsOf(bookings), date, time, lane);
        var unavailable := isPreBooked || isBooked;
        assert times[..i + 1][..i] == times[..i];
        if !unavailable {
          options := options + [time];
        }
        grid := grid + [Cell(time, !unavailable)];
        i := i + 1;
      }
      assert times[..i] == times;
    }

    /** Handles a submission of form `f`; `insertOk` is the store's verdict
        on the insert, consulted only when a client exists. */
    method HandleBooking(f: Form, insertOk: bool) returns (outcome: Outcome)
      modifies this
      ensures outcome == Admit(f, preBooked, old(bookings), hasClient, insertOk)
      ensures bookings == After(old(bookings), f, outcome)
      ensures Settled(preBooked, old(bookings)) ==> Settled(preBooked, bookings)
    {
      if Settled(preBooked, bookings) {
        AdmitKeepsSettled(f, preBooked, bookings, hasClient, insertOk);
      }
      var name := Trim(f.name);
      var phone := Trim(f.phone);
      var email := Trim(f.email);
      var club := Trim(f.club);
      var age := Trim(f.age);
      if f.date == [] || f.time == [] || f.lane == [] {
        return MissingSlot;
      }
      if name == [] {
        return MissingName;
      }
      if phone == [] || email == [] || club == [] || f.gender == [] || age == [] {
        return MissingDetails;
      }
      var conflictPre := AnyCollides(preBooked, f.date, f.time, f.lane);
      var conflictExisting := AnyCollides(SlotsOf(bookings), f.date, f.time, f.lane);
      if conflictPre || conflictExisting {
        return Unavailable;
      }
      var record := Booking(f.date, f.time, f.lane, name, phone, email, club, f.gender, age);
      if !hasClient {
        bookings := bookings + [record];
        return SavedLocally;
      }
      if !insertOk {
        return StoreError;
      }
      bookings := bookings + [record];
      return Saved;
    }
  }

  /** Every time the drop-down offers passes the booking re-check against
      the same state, and every start time the re-check would let through is
      offered. */
  lemma OfferedIffAdmissible(preBooked: seq<Slot>, bookings: seq<Booking>, f: Form,
                             hasClient: bool, insertOk: bool)
    requires Complete(f)
    ensures f.time in FreeTimes(AVAILABLE_TIMES, preBooked, bookings, f.date, f.lane)
            <==> f.time in AVAILABLE_TIMES && Admit(f, preBooked, bookings, hasClient, insertOk) != Unavailable
  {
  }
}
