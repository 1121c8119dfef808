/**
 * The slot loop of `generate15MinSlots`: candidate starts from opening time
 * in steps of the slot interval while the whole booking fits before the
 * limit, keeping those the technician is free for.
 */
module Slots {
  import opened Wrappers
  import opened Salon
  import opened Conflicts

  /** What the time grid shows. */
  datatype SlotOutcome =
    | NoServices              // total duration 0: nothing is computed
    | NoSpecialist            // "Select a specialist to continue"
    | ClosedOnSunday          // "We are closed on Sundays"
    | NoAvailableSlots        // "No available slots for this date"
    | Available(starts: seq<int>)

  /** The last minute a booking may reach: midnight for admins, closing time otherwise. */
  function Limit(user: Option<User>): (limit: int)
    ensures IsAdmin(user) ==> limit == DayEndMinute
    ensures !IsAdmin(user) ==> limit == ClosingMinute
  {
    if IsAdmin(user) then DayEndMinute else ClosingMinute
  }

  /** A start the loop visits: opening time plus a whole number of intervals. */
  predicate OnGrid(s: int) {
    s >= OpeningMinute && (s - OpeningMinute) % SlotInterval == 0
  }

  /** A start the grid offers: on the grid, the booking fits, the technician is free. */
  predicate IsOpenSlot(appts: seq<Appointment>, tech: string, date: string, total: int, limit: int, s: int) {
    OnGrid(s) && s + total <= limit && !IsBusy(appts, tech, date, s, total)
  }

  predicate StrictlyAscending(xs: seq<int>) {
    forall i, j :: 0 <= i < j < |xs| ==> xs[i] < xs[j]
  }

  lemma {:induction false} GridStep(s: int, t: int)
    requires OnGrid(s) && OnGrid(t) && s < t
    ensures s + SlotInterval <= t
  {
    var a := (s - OpeningMinute) / SlotInterval;
    var b := (t - OpeningMinute) / SlotInterval;
    assert s == OpeningMinute + a * SlotInterval;
    assert t == OpeningMinute + b * SlotInterval;
  }

  /**
   * The loop from `start` on: every open slot at or after `start`, each
   * once, in ascending order.
   */
  function FreeStarts(appts: seq<Appointment>, tech: string, date: string, total: int, limit: int, start: int): (r: seq<int>)
    requires OnGrid(start)
    ensures forall i :: 0 <= i < |r| ==> start <= r[i] && IsOpenSlot(appts, tech, date, total, limit, r[i])
    ensures forall s :: start <= s && IsOpenSlot(appts, tech, date, total, limit, s) ==> s in r
    ensures StrictlyAscending(r)
    decreases limit - total - start
  {
    if start + total > limit then []
    else
      var rest := FreeStarts(appts, tech, date, total, limit, start + SlotInterval);
      assert forall s :: start < s && OnGrid(s) ==> start + SlotInterval <= s by {
        forall s | start < s && OnGrid(s) ensures start + SlotInterval <= s {
          GridStep(start, s);
        }
      }
      if IsBusy(appts, tech, date, start, total) then rest else [start] + rest
  }

  /** The Sunday rule: a signed-in non-admin sees the salon closed. */
  predicate ClosedFor(user: Option<User>, weekday: int) {
    weekday == 0 && IsSignedInNonAdmin(user)
  }

  /**
   * `generate15MinSlots` for the selected technician and date, the total
   * duration of the checked services, the acting user and the date's
   * weekday (`getDay`, 0 for Sunday). "" stands for an unselected
   * technician or date.
   */
  function GenerateSlots(user: Option<User>, weekday: int, tech: string, date: string, total: int, appts: seq<Appointment>): (r: SlotOutcome)
    ensures r == NoServices <==> total == 0
    ensures r == NoSpecialist <==> total != 0 && (tech == "" || date == "")
    ensures r == ClosedOnSunday <==> total != 0 && tech != "" && date != "" && ClosedFor(user, weekday)
    ensures r == NoAvailableSlots <==>
              && total != 0 && tech != "" && date != "" && !ClosedFor(user, weekday)
              && forall s :: !IsOpenSlot(appts, tech, date, total, Limit(user), s)
    ensures r.Available? ==> |r.starts| > 0 && StrictlyAscending(r.starts)
    ensures r.Available? ==> forall s :: s in r.starts <==> IsOpenSlot(appts, tech, date, total, Limit(user), s)
  {
    if total == 0 then NoServices
    else if tech == "" || date == "" then NoSpecialist
    else if ClosedFor(user, weekday) then ClosedOnSunday
    else
      var starts := FreeStarts(appts, tech, date, total, Limit(user), OpeningMinute);
      if |starts| == 0 then
        NoAvailableSlots
      else
        assert IsOpenSlot(appts, tech, date, total, Limit(user), starts[0]);
        Available(starts)
  }

  /**
   * With nothing booked, the loop from a grid start lists every grid start
   * whose booking fits: evenly spaced, as many as fit before the limit.
   */
  lemma {:induction false} EmptyDayStarts(tech: string, date: string, total: int, limit: int, start: int)
    requires OnGrid(start)
    ensures var r := FreeStarts([], tech, date, total, limit, start);
            && |r| == (if start + total > limit then 0 else (limit - total - start) / SlotInterval + 1)
            && forall i :: 0 <= i < |r| ==> r[i] == start + i * SlotInterval
    decreases limit - total - start
  {
    if start + total <= limit {
      assert !IsBusy([], tech, date, start, total);
      assert OnGrid(start + SlotInterval);
      EmptyDayStarts(tech, date, total, limit, start + SlotInterval);
    }
  }

  /** Past the three early answers, a non-empty loop result is what the user is offered. */
  lemma {:induction false} OffersLoopResult(user: Option<User>, weekday: int, tech: string, date: string, total: int, appts: seq<Appointment>)
    requires total != 0 && tech != "" && date != "" && !ClosedFor(user, weekday)
    requires |FreeStarts(appts, tech, date, total, Limit(user), OpeningMinute)| > 0
    ensures GenerateSlots(user, weekday, tech, date, total, appts) == Available(FreeStarts(appts, tech, date, total, Limit(user), OpeningMinute))
  {
  }

  /**
   * An empty book, 30 minutes of services, a client on a weekday: 35 starts,
   * 10:00, 10:15, ... 18:30.
   */
  lemma {:induction false} WeekdayClientGrid(client: User, tech: string, date: string)
    requires client.role == Client && tech != "" && date != ""
    ensures var r := GenerateSlots(Some(client), 1, tech, date, 30, []);
            && r.Available? && |r.starts| == 35
            && r.starts[0] == 600 && r.starts[34] == 1110
            && forall i :: 0 <= i < 35 ==> r.starts[i] == 600 + 15 * i
  {
    assert Limit(Some(client)) == ClosingMinute;
    EmptyDayStarts(tech, date, 30, ClosingMinute, OpeningMinute);
    OffersLoopResult(Some(client), 1, tech, date, 30, []);
  }

  /** On a Sunday a signed-in client is told the salon is closed. */
  lemma {:induction false} SundayClientClosed(client: User, tech: string, date: string, total: int, appts: seq<Appointment>)
    requires client.role == Client && tech != "" && date != "" && total != 0
    ensures GenerateSlots(Some(client), 0, tech, date, total, appts) == ClosedOnSunday
  {
  }

  /**
   * On a Sunday an admin gets the ordinary grid extended to midnight: with
   * nothing booked and 30 minutes, 55 starts, 10:00 to 23:30.
   */
  lemma {:induction false} SundayAdminGrid(admin: User, tech: string, date: string)
    requires admin.role == Admin && tech != "" && date != ""
    ensures var r := GenerateSlots(Some(admin), 0, tech, date, 30, []);
            && r.Available? && |r.starts| == 55
            && forall i :: 0 <= i < 55 ==> r.starts[i] == 600 + 15 * i
  {
    assert Limit(Some(admin)) == DayEndMinute;
    EmptyDayStarts(tech, date, 30, DayEndMinute, OpeningMinute);
    OffersLoopResult(Some(admin), 0, tech, date, 30, []);
  }

  /** A guest is never told the salon is closed: the Sunday rule needs a signed-in user. */
  lemma {:induction false} GuestIgnoresSunday(tech: string, date: string, total: int, appts: seq<Appointment>)
    ensures GenerateSlots(None, 0, tech, date, total, appts) == GenerateSlots(None, 1, tech, date, total, appts)
  {
  }

  /** Every start offered to a non-admin is offered to an admin as well. */
  lemma {:induction false} AdminSeesMore(client: User, admin: User, weekday: int, tech: string, date: string, total: int, appts: seq<Appointment>)
    requires client.role != Admin && admin.role == Admin && weekday != 0
    ensures var c := GenerateSlots(Some(client), weekday, tech, date, total, appts);
            var a := GenerateSlots(Some(admin), weekday, tech, date, total, appts);
            c.Available? ==> a.Available? && forall s :: s in c.starts ==> s in a.starts
  {
    var c := GenerateSlots(Some(client), weekday, tech, date, total, appts);
    if c.Available? {
      assert IsOpenSlot(appts, tech, date, total, Limit(Some(admin)), c.starts[0]);
    }
  }
}
