# Salon booking engine — a Dafny model

This project models the pure decisions inside the single-page salon
application `script.js`: clients pick services, a specialist (technician)
and a date; the page offers the free 15-minute start times; the client books
one; admins manage laser days and the service catalogue and watch a
scheduler grid. Everything the page does through the DOM or the data store
is replaced by parameters; what remains is integer and string logic over
immutable records.

Modules (one file each):

- `Wrappers` — `Option` (JavaScript's `undefined`/`NaN`) and `Result`.
- `Seqs` — `Array.prototype.filter`, removing the first occurrence, no-repeat lists.
- `Clock` — `timeToMins` / `formatMinsToTime` and their round trip.
- `Salon` — the records (`Service`, `Technician`, `Appointment`, `User`,
  `Role`, `Status`) and `APP_SETTINGS` (open 10, close 19, 15-minute slots).
- `Conflicts` — `checkTechBusy` and the no-overlap invariant of a technician's day.
- `Slots` — the slot loop of `generate15MinSlots` and its outcomes
  (no services, no specialist, closed on Sunday, fully booked, available starts).
- `Eligibility` — the technician drop-down and the laser-aware, grouped service menu.
- `Booking` — the checks and the record of `bookNowBtn.onclick`.
- `ClientView` — the upcoming / pending / past tabs of the client profile.
- `Scheduler` — rows and booking blocks of the admin scheduler grid.
- `Admin` — laser-day toggle and new-service validation.
- `Notifications` — the booking notice and who is shown which notice.

Points of the code worth stating plainly:

- The booking handler checks only that the user is a signed-in client, that a
  slot is selected and that the technician name is on the roster. It does not
  re-check the technician's skills, the busy check or the closing time, and
  does not require a service to be selected (`Booking.NoSkillRecheck` shows an
  unskilled technician accepted).
- Laser services are those whose category lower-cases to exactly "laser".
- Failures are the messages the handlers show, modelled as `Result` errors;
  the code has no typed exceptions.
- Overlap is half-open: a 10:30 candidate of 30 minutes is free against a
  10:00–10:30 booking and busy against a 10:30–11:30 one
  (`Conflicts.TouchingExample`).

## Model

| member | source | states |
|---|---|---|
| Clock.TimeToMins | script.js:1755-1758 | a parse is a non-negative minute count; a string with no ':' has no minute field and gives NaN (None) |
| Clock.FormatMinsToTime | script.js:1760-1764 | the result is "H:MM": a digit-only hour field equal to mins / 60 and without a leading zero unless it is the single digit 0, one colon, a two-digit minute field equal to mins % 60 |
| Clock.ParseHourMinute | script.js:1755-1758 | a string of digits, its first colon, then digits parses to the first number times 60 plus the second |
| Clock.RoundTrip | script.js:1755-1764 | parsing the rendering of any non-negative minute count gives that count back |
| Clock.RenderingExamples | script.js:1760-1764 | 600 renders as "10:00" and 545 as "9:05" |
| Conflicts.IsBusy | script.js:525-535 | busy iff some appointment has the same date and technician, is not cancelled, has a parsable time, and overlaps the candidate half-open interval |
| Conflicts.BusyIffClash | script.js:525-535 | for a live appointment b the busy check over b's own interval is exactly "some listed appointment clashes with b" |
| Conflicts.FreeBookingKeepsNoOverlap | script.js:525-535 | appending an appointment whose interval the busy check found free keeps the list free of clashing pairs |
| Conflicts.CancelledIgnored | script.js:527 | adding a cancelled appointment never changes the busy verdict |
| Conflicts.TouchingIsFree | script.js:529-533 | when every live appointment of the technician on the date ends by the candidate's start or starts at or after its end, the candidate is free |
| Conflicts.OwnIntervalBusy | script.js:529-533 | an appointment stored with the rendered start s and a positive duration makes [s, s + duration) busy |
| Conflicts.TouchingExample | script.js:525-535 | bookings at 10:00-10:30 and 10:30-11:30: 10:00 for 30 minutes is busy; 10:30 for 30 minutes is free against the first booking alone and busy against both |
| Slots.FreeStarts | script.js:499-517 | the loop emits exactly the on-grid starts from its first start onward whose booking fits before the limit and that are not busy, strictly ascending |
| Slots.GenerateSlots | script.js:475-523 | total 0 gives no computation; no technician or date asks for a specialist; a signed-in non-admin on a Sunday is told the salon is closed; otherwise "no available slots" iff no open start exists, else exactly the open starts in ascending order |
| Slots.EmptyDayStarts | script.js:499-517 | with nothing booked, the loop from any grid start lists every grid start whose booking fits, evenly spaced by 15 minutes, with the count computed from the limit |
| Slots.WeekdayClientGrid | script.js:499-517 | nothing booked, 30 minutes, a client on a weekday: 35 starts 600, 615, ..., 1110 |
| Slots.SundayClientClosed | script.js:491-497 | on a Sunday a signed-in client with a technician, a date and a non-zero total is told the salon is closed |
| Slots.SundayAdminGrid | script.js:491-517 | on a Sunday an admin gets the grid up to midnight: nothing booked and 30 minutes give 55 starts 600, 615, ..., 1410 |
| Slots.GuestIgnoresSunday | script.js:493 | for a guest a Sunday gives the same outcome as a weekday |
| Slots.AdminSeesMore | script.js:500-501 | every start offered to a non-admin on a non-Sunday is offered to an admin too |
| Eligibility.EligibleTechnicians | script.js:430-458 | a technician is listed iff on the roster, visible to the role (a specialist only sees the record linked to their uid) and, when services are checked, holding a non-empty skill list containing every checked id |
| Eligibility.NoSelectionKeepsRoleVisible | script.js:437-457 | with nothing checked the drop-down is every role-visible technician, in roster order |
| Eligibility.NoSelectionShowsRoster | script.js:437-457 | with nothing checked, anyone but a specialist sees the whole roster unchanged |
| Eligibility.VisibleServices | script.js:312-328 | a service is listed iff it is not a laser service hidden because laser is off for the date and a signed-in non-admin is looking; non-laser services always show; guests and admins see the whole catalogue |
| Eligibility.CategoryName | script.js:331-335 | a laser service is headed "Laser"; any other service is headed by its category, or "General Services" when the category is blank |
| Eligibility.GroupByCategory | script.js:316-338 | headings are distinct, each group is exactly the services under its heading in catalogue order and is non-empty, and every service's heading has a group |
| Eligibility.ServiceMenu | script.js:304-338 | nothing is drawn iff some visible service is headed by a key every JavaScript object inherits (such as "constructor"); otherwise the menu groups exactly the visible services by heading |
| Eligibility.InheritedCategoryBlanksMenu | script.js:315-338 | a visible service filed under "constructor" leaves the whole menu empty |
| Eligibility.LaserGroupedTogether | script.js:317-338 | whenever the menu is drawn, every visible service lies in the group of its heading, which is "Laser" iff it is a laser service |
| Booking.TotalsAdditive | script.js:413-414 | the duration and price totals add up over any split of the selection |
| Booking.PositiveDurations | script.js:413-417 | services of positive duration sum to at least their number, so a non-empty selection has a non-zero total |
| Booking.ValidSelectionComputesSlots | script.js:1352 | a non-empty selection of entries the add-service form accepted never stops the grid at "no services" |
| Booking.NeedsApproval | script.js:560 | true iff some selected service requires confirmation |
| Booking.FindTechnician | script.js:566-572 | the first roster entry with that name, or none iff no entry has it; the handler refuses when there is none |
| Booking.BuildBooking | script.js:543-589 | refused for a guest or non-client, then for no slot, then for an unknown technician name; otherwise the record's time is the slot rendered as "H:MM" (which parses back to the slot), duration and price are the totals read from the summary, status is pending iff some checked service needs confirmation and confirmed otherwise, names and ids follow the checked services, client fields come from the user and the specialist id is that of the first roster entry with the name ("" when it has none) |
| Booking.NewBooking | script.js:574-589 | the record written: its time is the start rendered as "H:MM", which parses back to the start; duration and price are the summary's totals, status is pending iff some checked service needs confirmation and confirmed iff none does, names, ids and client fields follow the checked services and the user |
| Booking.InSyncRecordMatchesServices | script.js:411-419 | when the summary shows the totals of the checked services, the record lists those services, carries exactly their total duration and price, and is pending iff one needs confirmation |
| Booking.RedrawnFormBooksNoServices | script.js:557-589 | after the checkboxes are redrawn, a 60-minute service needing confirmation that was ticked is booked as a confirmed 60-minute record with no services; before the redraw the same click gives a pending booking |
| Booking.OfferedSlotKeepsNoOverlap | script.js:505-589 | when the start is open for the duration the summary shows (as it is when the grid was built for the services being booked) and the handler's checks pass, the booking succeeds and appending it keeps the appointment list free of clashing pairs |
| Booking.StaleSlotDoubleBooks | script.js:411-428 | a 10:00 start open for a 30-minute selection, booked after a 60-minute service is added, is written for 90 minutes and clashes with an existing 10:30-11:30 booking |
| Booking.StaleSlotPastClosing | script.js:411-428 | an 18:30 start open for 30 minutes, booked after a 60-minute service is added, runs past closing time |
| Booking.OfferedBookingEndsByClosing | script.js:499-505 | when a client books a start the grid offered for the very services that are booked, the booking ends by closing time |
| Booking.OfferedSlotIsOpen | script.js:499-517 | every start the grid offers is at or after opening time and open: on the grid, fitting before the limit and not busy |
| Booking.BookedSlotBecomesBusy | script.js:583-587 | when the handler's checks pass for services of positive duration, the booking succeeds and, once appended, makes its own start busy for any positive length |
| Booking.NoSkillRecheck | script.js:566-572 | the handler looks the technician up by name only: a technician with no skills is accepted for any selection |
| Booking.ApprovalMakesPending | script.js:560-587 | when the handler's checks pass, one service needing confirmation anywhere in the selection makes the booking succeed as pending |
| ClientView.LexLessIrreflexive | script.js:655 | no date string is before itself |
| ClientView.LexLessAsymmetric | script.js:655 | two date strings are never each before the other |
| ClientView.ClientBookings | script.js:642-675 | a booking is listed iff it carries the client's email or phone and passes the tab's filter; the pending tab lists pending bookings only |
| ClientView.ConfirmedIsUpcomingXorPast | script.js:652-674 | a confirmed booking with a parsable time is in exactly one of "upcoming" and "past" |
| ClientView.PendingNeverUpcoming | script.js:652-674 | pending bookings are never upcoming; bookings dated before today are past and not upcoming whatever their status |
| ClientView.FutureDateNeverPast | script.js:652-674 | a booking dated after today is never past, and a confirmed one is upcoming whatever its time |
| Scheduler.RowAt | script.js:908-914 | row i sits on grid row i + 2 at minute 600 + 15i; its quick-add time is that minute written as the slot grid writes its starts, so it parses back to the minute; it is labelled iff on the hour |
| Scheduler.Rows | script.js:905-915 | 37 rows, from opening time to closing time inclusive |
| Scheduler.TechsToShow | script.js:883 | "all" shows the roster, otherwise exactly the technicians of that name |
| Scheduler.ColumnIndex | script.js:937-938 | the first column whose technician has the name, or -1 iff none |
| Scheduler.QuarterHoursCeil | script.js:942 | the least number of quarter hours covering the duration |
| Scheduler.BlockFor | script.js:929-947 | a block is drawn iff the appointment is confirmed, passes the date, technician and service filters and its technician has a column; it spans enough rows to cover its duration and its first row is the row of its start |
| Scheduler.StartRowOnGrid | script.js:940-941 | an on-grid start s is placed on grid row (s - 600) / 15 + 2 |
| Scheduler.BookingSitsOnItsRow | script.js:905-941 | a booking that passes the filters, has a shown technician and starts on the grid within opening hours is drawn, on the row showing that start |
| Scheduler.BlocksOf | script.js:929-955 | the blocks drawn are exactly the blocks of the appointments that get one |
| Scheduler.Schedule | script.js:860-890 | "loading" iff the roster is empty, "no technicians match" iff the filter leaves nobody, otherwise the grid of the shown technicians with exactly the rows of Rows, drawing exactly the blocks of the appointments that get one |
| Admin.ToggleLaserDate | script.js:991-1008 | no date selected is refused; a listed date loses one occurrence, an unlisted one is added; other dates keep their membership; on a list without repeats the date's membership flips and no repeat appears |
| Admin.ToggleTwice | script.js:1001-1008 | on a list without repeats, toggling a date twice restores the same dates with the same multiplicities |
| Admin.Trim | script.js:1346-1350 | the result is the input with a run of white space removed from each end: empty iff the input is all white space, and otherwise starting and ending with a non-space |
| Admin.NewService | script.js:1339-1362 | accepted iff the trimmed name is non-empty, the duration a positive number and the price a non-negative number; the entry then carries the trimmed name and category ("Other" when blank) |
| Notifications.NotificationsFor | script.js:1695-1704 | a guest sees nothing; a user sees exactly the unread notices for admins (when an admin) or addressed to their name |
| Notifications.BookingNoticeAudience | script.js:1562-1580 | the booking notice reaches exactly the admins and the user named as the technician |
| Notifications.AdminOnlyStaysWithAdmins | script.js:1699-1704 | a non-admin sees only notices addressed to their own name |

## Left out

- Data-store sync, sign-in, account creation and deletion, and every write to
  the store: external I/O. Their effects enter as parameters (the roster,
  catalogue, appointments, laser days, notices, the signed-in user).
- DOM rendering, modals, CSS, sounds, browser notifications, polling timers
  and toasts: presentation and side effects.
- Wall-clock time: today's date, the current minute and the selected date's
  weekday (`getDay`, 0 for Sunday) are parameters; date parsing is not modelled.
- Sorting by `localeCompare` (client tabs, specialist schedule): locale-dependent.
- The weekly calendar, the specialist schedule view, `generatePassword`
  (random) and `validateEmail` (a regular expression).
- Report aggregation and skill re-validation at booking time: the code has
  neither.
- Two bookings racing for one slot: the code takes no lock, so there is
  nothing to verify.
- Clock.TimeToMins: `Number` is modelled for empty and all-digit fields only;
  signs, spaces, fractions, exponents and hexadecimal fields are taken as NaN.
- Clock.FormatMinsToTime: takes non-negative minutes only; JavaScript's
  truncating `%` on negative input is not modelled because no caller passes one.
- ClientView.LexLess: compares Unicode code points, while JavaScript compares
  UTF-16 code units; they differ only above U+FFFF, which date strings do not use.
- Seqs.Filter: states membership and length, not that the order of the input is kept.
- Eligibility.GroupByCategory: does not state the order of the headings
  (JavaScript lists integer-like keys first).
- Scheduler.BlockFor: a start off the quarter-hour grid gives a fractional CSS
  row, modelled as no row; `Math.ceil` is modelled on integer durations only.
- Admin.NewService: `parseInt` of the form fields is not modelled; the
  parsed numbers (None for NaN) are inputs.
- Booking.BuildBooking: the summary totals are taken as already parsed
  integers; a summary text that `parseInt` reads as NaN is not modelled.

## Findings

The time grid is rebuilt only when the technician changes (`script.js:1983-1985`).
Checking or unchecking a service updates the totals (`script.js:411-428`) but,
unless the total drops to 0, leaves the grid as it was (at 0 the grid is
replaced by a prompt and the Book button hidden). The booking handler reads the new total
(`script.js:562`) without re-running the busy check or the closing-time limit.
A start offered for a shorter selection can therefore be booked for a longer one.

The handler also takes its duration and price from the summary text
(`script.js:562-563`) rather than from the checked services. Redrawing the
checkboxes, which happens on every catalogue update (`script.js:103`) and on
entering the booking view (`script.js:211`), unchecks every box but leaves the
summary, the grid and the selected slot alone.

The service menu groups services in a plain object (`script.js:315`). For a
heading that every JavaScript object inherits, such as "constructor", the
lookup at `script.js:337` finds the inherited value, and `push` at
`script.js:338` throws, so nothing is drawn. The add-service form accepts
such a category (`script.js:1350`).

| source | as written | input that shows it | evidently intended | confidence | as-written member | corrected member |
|---|---|---|---|---|---|---|
| script.js:411-428 | changing the checked services keeps the old grid, and the handler books the new total at a start offered for the old one | alice booked 10:30–11:30; a 30-minute service shows 10:00 as free; adding a 60-minute service and booking 10:00 writes a 90-minute booking that overlaps 10:30–11:30 | a booking is made only at a start that is free for the duration actually booked | not executed | Booking.StaleSlotDoubleBooks | Booking.OfferedSlotKeepsNoOverlap |
| script.js:411-428 | the closing-time limit is applied only when the grid is built | a client sees 18:30 offered for 30 minutes; adding a 60-minute service and booking 18:30 gives a booking that ends at 20:00, past the 19:00 closing time | a client booking ends by closing time | not executed | Booking.StaleSlotPastClosing | Booking.OfferedBookingEndsByClosing |
| script.js:562-563 | the booking's duration and price are read from the summary text, which a checkbox redraw does not reset | a client ticks a 60-minute service needing confirmation, picks alice and 10:00, the catalogue updates, then they click Book: a confirmed record with no services and 60 minutes is written | the record carries the checked services and their totals | not executed | Booking.RedrawnFormBooksNoServices | Booking.InSyncRecordMatchesServices |
| script.js:315-338 | headings are keys of a plain object, so an inherited key such as "constructor" makes `push` throw | a visible service with category "constructor" | every visible service is listed under its heading | not executed | Eligibility.InheritedCategoryBlanksMenu | Eligibility.GroupByCategory |
