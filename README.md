# Finns.Fairway booking page: slot conflicts and booking admission

This project models the client-side logic of the Finns.Fairway golf-lane
booking page (`script.js`). The page offers fixed hourly start times for a
chosen date and lane. Times that are pre-booked or already booked are hidden.
A submitted booking goes through an ordered series of checks before one
record is added to the page's `bookings` list.

Structure:

- `text.dfy`, module `Text`: ECMAScript `String.prototype.trim`. It strips the
  characters of the WhiteSpace and LineTerminator productions of ECMA-262. The form applies it to the name, phone, e-mail,
  club and age fields.
- `slots.dfy`, module `Slots`: the conflict rule. An existing entry collides
  with a request when date and time are equal and the lanes are equal, or
  either lane is `"full"`. Lanes are otherwise opaque strings. `Blocked` is the
  page's `isPreBooked || isBooked` test, used both by the calendar and by the
  re-check before booking. `Settled` is the invariant: no two stored bookings
  collide, and none collides with a pre-booked entry.
- `calendar.dfy`, module `Calendar`: the fixed schedule `AVAILABLE_TIMES`
  (08:00 to 20:00) and `FreeTimes`, the ordered filter behind the time
  drop-down.
- `admission.dfy`, module `Admission`: the form, the outcome of a submission,
  the pure decision `Admit`, and `After`, the bookings list after a
  submission.
- `page.dfy`, module `Page`: class `BookingPage`. It holds the module-level
  `bookings` list as a `seq` field, plus the configured pre-booked entries and
  whether a store client exists. Its methods are `LoadBookings`,
  `RenderCalendar` (with its loop `RenderTimes`) and `HandleBooking`.
  `HandleBooking` follows the source's early-return sequence and is proved
  equal to `Admit` and `After`.

Environment inputs are parameters:

- Whether a store client was created is the constant `hasClient`.
- The result of the store query for a date is a `Fetch` value.
- Whether the store accepts an insert is the boolean `insertOk`.
- The pre-booked list is a constructor argument. `script.js` ships it empty,
  as a list for the operator to fill in.

## Model

| member | source | states |
|---|---|---|
| Text.TrimStartSpec | script.js:140 | trim drops only leading white space and keeps a suffix starting with a non-space character |
| Text.TrimEndSpec | script.js:140 | trim drops only trailing white space and keeps a prefix ending with a non-space character |
| Text.TrimIsInnerSlice | script.js:140-146 | a trimmed field is what is left of the input after cutting off a blank prefix and a blank suffix, with no white space at either end |
| Text.TrimEmptyIffBlank | script.js:140-146 | a trimmed field is empty exactly when the input is white space only |
| Slots.AnyCollides | script.js:111-116 | the `.some` test is true exactly when some entry in the list collides with the request |
| Slots.LanesClashSymmetric | script.js:112 | the lane part of the rule gives the same answer when the two lanes are swapped |
| Slots.CollidesSymmetric | script.js:168-169 | entry a collides with a request for b's slot exactly when b collides with a request for a's slot |
| Slots.FullBlocksEverything | script.js:27-29 | at the same date and time a full entry blocks every lane, and a full request is blocked by every entry |
| Slots.DistinctHalvesCoexist | script.js:112 | entries at another date or time never collide; two different non-full lanes at one slot do not collide |
| Slots.FullEntryBlocksList | script.js:114-116 | a full entry in a list blocks every lane of its slot, and a full request is blocked by any entry at its slot |
| Slots.OtherSlotsNeverBlock | script.js:111-116 | a list whose entries all lie at other dates or times blocks nothing |
| Slots.AppendKeepsSettled | script.js:167-178 | appending a booking that passes the re-check keeps the bookings free of mutual and pre-booked collisions |
| Slots.SettledPairwiseFree | script.js:168-169 | in a settled list no two distinct bookings collide, in either order |
| Calendar.FreeTimes | script.js:106-130 | the offered times are exactly the schedule times not blocked for the date and lane, never more than the schedule |
| Calendar.FreeTimesInOrder | script.js:106-130 | the offered times occupy strictly increasing positions of the schedule, so the original order is kept |
| Calendar.FreeTimesDistinct | script.js:106-130 | a schedule without repeats yields options without repeats |
| Calendar.AvailableTimesDistinct | script.js:23-25 | the fixed schedule lists each start time once |
| Calendar.OfferedTimesDistinct | script.js:23-130 | the page's drop-down never lists a start time twice |
| Admission.OutcomeConditions | script.js:150-195 | the checks run in order (date/time/lane, name, other details, conflict, then client and insert) and each outcome holds exactly under its condition |
| Admission.BlankNameIsMissing | script.js:155-159 | a name of white space only is rejected as missing |
| Admission.AfterChangesOnlyOnAcceptance | script.js:176-195 | every rejection leaves the bookings unchanged; an acceptance appends exactly one record with the submitted, trimmed fields and keeps the old entries |
| Admission.AdmitKeepsSettled | script.js:167-195 | every submission keeps the bookings settled |
| Admission.FullSlotRejects | script.js:168-174 | a stored full booking at the slot, or a full request at a booked slot, is never admitted |
| Page.BookingPage.constructor | script.js:30-35 | the page starts with no bookings |
| Page.BookingPage.LoadBookings | script.js:73-88 | bookings become empty without a client, on a query error or on null data, and otherwise the returned rows |
| Page.BookingPage.RenderTimes | script.js:106-132 | one grid cell per schedule time, marked available exactly when not blocked, and the unblocked times in order as options |
| Page.BookingPage.RenderCalendar | script.js:99-133 | the calendar for the date and lane: cells for all thirteen times, and options that are exactly the unblocked times, in order, without repeats |
| Page.BookingPage.HandleBooking | script.js:136-207 | the outcome is the ordered admission verdict; bookings grow by the submitted record exactly on acceptance; settledness is preserved (for a submission that does not overlap another) |
| Page.OfferedIffAdmissible | script.js:111-116 | for a complete form, a time is offered in the drop-down exactly when it is in the schedule and the re-check would not reject it |

## Left out

- Creating the store client (`script.js:17-20`) is not modelled. Client presence is the boolean `hasClient`. As written, line 19 calls `createClient` on the variable `supabase` itself, which is still `null` at that point. The model does not capture that call.
- The store query by date (`script.js:78-81`) is not modelled. `LoadBookings` receives its result as a `Fetch` value, so it has no date parameter. The query's own filtering by date is not modelled either.
- The store insert (`script.js:185-187`) is not modelled. Its success or failure is the parameter `insertOk`.
- Asynchronous scheduling and event listeners (`script.js:62-69`, `92-96`) are I/O, so they are left out. This includes `handleDateOrLaneChange`, which is a load followed by a render.
- DOM work is left out:
  - clearing and building of the grid and drop-down elements, class toggling and click handlers;
  - reading the form, and clearing it after a successful insert (`script.js:198-204`);
  - the message box and `console.error`.
  `RenderCalendar` returns the grid cells and the option list instead. The re-render after a push (`script.js:179`, `196`) is `RenderCalendar` called on the new state.
- The Norwegian message texts are left out. Each message is an `Outcome` constructor.
- The default date from the clock and the footer year (`script.js:55-59`) depend on wall-clock time, so they are left out.
- JavaScript booking objects with missing or extra fields are not modelled. This covers a store row that also carries an id. Every stored entry is a full `Booking` record of strings.
- Text.IsSpace: the Unicode space separators are the fixed list of code points written out. Changes in later Unicode versions are not modelled. JavaScript strings are UTF-16 while a Dafny `string` holds Unicode scalar values; every listed character lies in the Basic Multilingual Plane, so trimming is unaffected.
- Lanes are opaque strings; only `"full"` is special.
- Page.BookingPage.HandleBooking: a submission is modelled as one atomic step. In `script.js` the function awaits the store insert (`script.js:185`) between the re-check (`script.js:168-170`) and the push (`script.js:195`). Nothing disables the Book button (`script.js:64`), and the form is cleared only after the push (`script.js:198-204`). So a double click can run two overlapping submissions; both see the old `bookings`, both pass the re-check and both push the same record. A `loadBookings` during the await can also replace `bookings`, and the push then lands in the new date's list. The preservation of `Settled` holds only when submissions do not overlap.
