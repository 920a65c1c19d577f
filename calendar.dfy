/** The calendar view's time filter: which of the page's fixed start times
    are offered for a chosen date and lane. */
module Calendar {
  import opened Slots

  /** The standard hourly start times the page offers, 08:00 to 20:00. */
  const AVAILABLE_TIMES: seq<string> := [
    "08:00", "09:00", "10:00", "11:00", "12:00", "13:00", "14:00",
    "15:00", "16:00", "17:00", "18:00", "19:00", "20:00"
  ]

  /** One cell of the calendar grid: the start time and whether it is
      styled available (clickable) or unavailable. */
  datatype Cell = Cell(time: string, available: bool)

  ghost predicate Distinct(s: seq<string>) {
    forall i, j :: 0 <= i < j < |s| ==> s[i] != s[j]
  }

  /** The times of `times` that no pre-booked entry and no stored booking
      blocks for `date` and `lane`, in their original order. */
  function FreeTimes(times: seq<string>, preBooked: seq<Slot>, bookings: seq<Booking>,
                     date: string, lane: string): (r: seq<string>)
    ensures |r| <= |times|
    ensures forall t :: t in r <==> t in times && !Blocked(preBooked, bookings, date, t, lane)
  {
    if times == [] then []
    else
      var last := times[|times| - 1];
      assert times == times[..|times| - 1] + [last];
      FreeTimes(times[..|times| - 1], preBooked, bookings, date, lane)
        + (if Blocked(preBooked, bookings, date, last, lane) then [] else [last])
  }

  /** The filter keeps the original order: the offered times sit at strictly
      increasing positions of `times`. */
  lemma {:induction false} FreeTimesInOrder(times: seq<string>, preBooked: seq<Slot>, bookings: seq<Booking>,
                                            date: string, lane: string)
      returns (idx: seq<nat>)
    ensures |idx| == |FreeTimes(times, preBooked, bookings, date, lane)|
    ensures forall k :: 0 <= k < |idx| ==>
              idx[k] < |times| && FreeTimes(times, preBooked, bookings, date, lane)[k] == times[idx[k]]
    ensures forall k, m :: 0 <= k < m < |idx| ==> idx[k] < idx[m]
  {
    if times == [] {
      idx := [];
    } else {
      var n := |times| - 1;
      var front := times[..n];
      var prev := FreeTimesInOrder(front, preBooked, bookings, date, lane);
      var r := FreeTimes(times, preBooked, bookings, date, lane);
      var rf := FreeTimes(front, preBooked, bookings, date, lane);
      if Blocked(preBooked, bookings, date, times[n], lane) {
        assert r == rf;
        idx := prev;
      } else {
        assert r == rf + [times[n]];
        idx := prev + [n];
      }
    }
  }

  /** With distinct start times the offered times are distinct too. */
  lemma {:induction false} FreeTimesDistinct(times: seq<string>, preBooked: seq<Slot>, bookings: seq<Booking>,
                                             date: string, lane: string)
    requires Distinct(times)
    ensures Distinct(FreeTimes(times, preBooked, bookings, date, lane))
  {
    if times != [] {
      var n := |times| - 1;
      var front := times[..n];
      assert Distinct(front);
      FreeTimesDistinct(front, preBooked, bookings, date, lane);
      assert times[n] !in front;
    }
  }

  lemma AvailableTimesDistinct()
    ensures Distinct(AVAILABLE_TIMES)
  {
  }

  /** The page's time drop-down never lists a start time twice. */
  lemma OfferedTimesDistinct(preBooked: seq<Slot>, bookings: seq<Booking>, date: string, lane: string)
    ensures Distinct(FreeTimes(AVAILABLE_TIMES, preBooked, bookings, date, lane))
  {
    AvailableTimesDistinct();
    FreeTimesDistinct(AVAILABLE_TIMES, preBooked, bookings, date, lane);
  }
}
