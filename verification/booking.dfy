/**
 * `bookNowBtn.onclick`: the checks a booking passes and the appointment
 * record it writes, with the totals `updateBookingTotal` shows.
 */
module Booking {
  import opened Wrappers
  import opened Clock
  import opened Salon
  import opened Conflicts
  import opened Slots

  /** Why the button refused, in the order the handler checks. */
  datatype BookingError =
    | NotSignedInAsClient   // "Please login as a client to book appointments"
    | NoSlotSelected        // "Please select a time slot"
    | UnknownSpecialist     // "Please select a valid specialist"

  /** The sum of the checked services' durations (and, below, prices), 0 for none. */
  function TotalDuration(selected: seq<Service>): int {
    if selected == [] then 0 else selected[0].duration + TotalDuration(selected[1..])
  }

  function TotalPrice(selected: seq<Service>): int {
    if selected == [] then 0 else selected[0].price + TotalPrice(selected[1..])
  }

  /** The totals add up over any split of the selection. */
  lemma {:induction false} TotalsAdditive(a: seq<Service>, b: seq<Service>)
    ensures TotalDuration(a + b) == TotalDuration(a) + TotalDuration(b)
    ensures TotalPrice(a + b) == TotalPrice(a) + TotalPrice(b)
  {
    if a == [] {
      assert a + b == b;
    } else {
      assert (a + b)[0] == a[0] && (a + b)[1..] == a[1..] + b;
      TotalsAdditive(a[1..], b);
    }
  }

  /** Services of positive duration never add up to 0, so slots are computed. */
  lemma {:induction false} PositiveDurations(selected: seq<Service>)
    requires forall i :: 0 <= i < |selected| ==> selected[i].duration > 0
    ensures |selected| > 0 ==> TotalDuration(selected) >= |selected|
    ensures |selected| == 0 ==> TotalDuration(selected) == 0
  {
    if selected != [] {
      PositiveDurations(selected[1..]);
    }
  }

  /**
   * A non-empty selection of catalogue entries the add-service form
   * accepted always reaches the slot loop's checks: the grid is computed.
   */
  lemma {:induction false} ValidSelectionComputesSlots(selected: seq<Service>, user: Option<User>, weekday: int, tech: string,
                                    date: string, appts: seq<Appointment>)
    requires |selected| > 0 && forall i :: 0 <= i < |selected| ==> ValidService(selected[i])
    ensures GenerateSlots(user, weekday, tech, date, TotalDuration(selected), appts) != NoServices
  {
    PositiveDurations(selected);
  }

  /** Whether any checked service is flagged as needing the salon's confirmation. */
  function NeedsApproval(selected: seq<Service>): (b: bool)
    ensures b <==> exists i :: 0 <= i < |selected| && selected[i].requiresConfirmation
  {
    if selected == [] then false
    else if selected[0].requiresConfirmation then true
    else
      var b := NeedsApproval(selected[1..]);
      assert b ==> exists i :: 0 <= i < |selected| && selected[i].requiresConfirmation by {
        if b {
          var i :| 0 <= i < |selected[1..]| && selected[1..][i].requiresConfirmation;
          assert selected[i + 1] == selected[1..][i];
        }
      }
      assert (exists i :: 0 <= i < |selected| && selected[i].requiresConfirmation) ==> b by {
        if exists i :: 0 <= i < |selected| && selected[i].requiresConfirmation {
          var i :| 0 <= i < |selected| && selected[i].requiresConfirmation;
          assert selected[1..][i - 1] == selected[i];
        }
      }
      b
  }

  /** The roster lookup by name: the first technician of that name. */
  function FindTechnician(techs: seq<Technician>, name: string): (r: Option<Technician>)
    ensures r.None? <==> forall i :: 0 <= i < |techs| ==> techs[i].name != name
    ensures r.Some? ==> exists i :: 0 <= i < |techs| && techs[i] == r.value && r.value.name == name
                                    && forall j :: 0 <= j < i ==> techs[j].name != name
  {
    if techs == [] then None
    else if techs[0].name == name then Some(techs[0])
    else
      var r := FindTechnician(techs[1..], name);
      assert r.Some? ==> exists i :: 0 <= i < |techs| && techs[i] == r.value && r.value.name == name
                                     && forall j :: 0 <= j < i ==> techs[j].name != name by {
        if r.Some? {
          var i :| 0 <= i < |techs[1..]| && techs[1..][i] == r.value && r.value.name == name
                   && forall j :: 0 <= j < i ==> techs[1..][j].name != name;
          assert techs[i + 1] == r.value;
          forall j | 0 <= j < i + 1 ensures techs[j].name != name {
            if j > 0 {
              assert techs[j] == techs[1..][j - 1];
            }
          }
        }
      }
      assert r.None? ==> forall i :: 0 <= i < |techs| ==> techs[i].name != name by {
        if r.None? {
          forall i | 0 <= i < |techs| ensures techs[i].name != name {
            if i > 0 {
              assert techs[i] == techs[1..][i - 1];
            }
          }
        }
      }
      r
  }

  function ServiceNames(selected: seq<Service>): (names: seq<string>)
    ensures |names| == |selected| && forall i :: 0 <= i < |selected| ==> names[i] == selected[i].name
  {
    seq(|selected|, i requires 0 <= i < |selected| => selected[i].name)
  }

  function ServiceIds(selected: seq<Service>): (ids: seq<string>)
    ensures |ids| == |selected| && forall i :: 0 <= i < |selected| ==> ids[i] == selected[i].id
  {
    seq(|selected|, i requires 0 <= i < |selected| => selected[i].id)
  }

  predicate IsClient(user: Option<User>) {
    user.Some? && user.value.role == Client
  }

  /**
   * The totals of the booking summary as the handler reads them back with
   * `parseInt` (`sum-duration`, `sum-price`). `updateBookingTotal` writes
   * them whenever the checked services add up to more than 0 minutes;
   * redrawing the checkboxes unchecks every box but leaves them as they
   * were.
   */
  datatype Summary = Summary(duration: int, price: int)

  /** The summary `updateBookingTotal` shows for a selection. */
  function SummaryOf(selected: seq<Service>): Summary {
    Summary(TotalDuration(selected), TotalPrice(selected))
  }

  /**
   * The booking the button writes for the signed-in user, the selected slot
   * (its minute count), the checked services, the totals of the summary,
   * the technician name in the drop-down, the roster and the date. The
   * first failed check wins.
   */
  function BuildBooking(user: Option<User>, slot: Option<nat>, selected: seq<Service>, summary: Summary, techName: string,
                        techs: seq<Technician>, date: string): (r: Result<Appointment, BookingError>)
    ensures r == Failure(NotSignedInAsClient) <==> !IsClient(user)
    ensures r == Failure(NoSlotSelected) <==> IsClient(user) && slot.None?
    ensures r == Failure(UnknownSpecialist) <==>
              IsClient(user) && slot.Some? && forall i :: 0 <= i < |techs| ==> techs[i].name != techName
    ensures r.Success? ==>
              var b := r.value;
              && b.time == FormatMinsToTime(slot.value) && TimeToMins(b.time) == Some(slot.value)
              && b.tech == techName && b.date == date
              && b.duration == summary.duration && b.price == summary.price
              && (b.status == Pending <==> exists i :: 0 <= i < |selected| && selected[i].requiresConfirmation)
              && (b.status == Confirmed <==> forall i :: 0 <= i < |selected| ==> !selected[i].requiresConfirmation)
              && b.services == ServiceNames(selected) && b.serviceIds == ServiceIds(selected)
              && b.userId == user.value.uid && b.name == user.value.name
              && b.phone == user.value.phone && b.email == user.value.email
    ensures r.Success? ==>
              exists i :: && 0 <= i < |techs| && techs[i].name == techName
                          && (forall j :: 0 <= j < i ==> techs[j].name != techName)
                          && r.value.specialistId == techs[i].userId.GetOr("")
  {
    if !IsClient(user) then Failure(NotSignedInAsClient)
    else if slot.None? then Failure(NoSlotSelected)
    else match FindTechnician(techs, techName)
      case None => Failure(UnknownSpecialist)
      case Some(specialist) =>
        assert exists i :: && 0 <= i < |techs| && techs[i].name == techName
                           && (forall j :: 0 <= j < i ==> techs[j].name != techName)
                           && specialist.userId.GetOr("") == techs[i].userId.GetOr("") by {
          var k :| 0 <= k < |techs| && techs[k] == specialist && specialist.name == techName
                   && forall j :: 0 <= j < k ==> techs[j].name != techName;
        }
        Success(NewBooking(user.value, specialist.userId.GetOr(""), slot.value, selected, summary, techName, date))
  }

  /**
   * The record the handler writes: the client's contact fields, the
   * specialist's id, the checked services, the start rendered as "H:MM",
   * the summary's totals, and pending status when some checked service
   * needs confirmation.
   */
  function NewBooking(u: User, specialistId: string, start: nat, selected: seq<Service>, summary: Summary,
                      techName: string, date: string): (b: Appointment)
    ensures b.time == FormatMinsToTime(start) && TimeToMins(b.time) == Some(start)
    ensures b.tech == techName && b.date == date && b.specialistId == specialistId
    ensures b.duration == summary.duration && b.price == summary.price
    ensures b.status == Pending <==> exists i :: 0 <= i < |selected| && selected[i].requiresConfirmation
    ensures b.status == Confirmed <==> forall i :: 0 <= i < |selected| ==> !selected[i].requiresConfirmation
    ensures b.services == ServiceNames(selected) && b.serviceIds == ServiceIds(selected)
    ensures b.userId == u.uid && b.name == u.name && b.phone == u.phone && b.email == u.email
  {
    RoundTrip(start);
    Appointment(
      name := u.name,
      phone := u.phone,
      email := u.email,
      userId := u.uid,
      specialistId := specialistId,
      services := ServiceNames(selected),
      serviceIds := ServiceIds(selected),
      tech := techName,
      time := FormatMinsToTime(start),
      duration := summary.duration,
      price := summary.price,
      date := date,
      status := if NeedsApproval(selected) then Pending else Confirmed)
  }

  /** The checks of the handler pass: a signed-in client, a slot, a technician name on the roster. */
  predicate Admissible(user: Option<User>, slot: Option<nat>, techName: string, techs: seq<Technician>) {
    IsClient(user) && slot.Some? && exists i :: 0 <= i < |techs| && techs[i].name == techName
  }

  /**
   * When the summary shows the totals of the checked services, the record
   * lists those services and carries exactly their total duration and
   * price, and it is pending iff one of them needs confirmation.
   */
  lemma {:induction false} InSyncRecordMatchesServices(user: Option<User>, slot: Option<nat>, selected: seq<Service>,
                                    techName: string, techs: seq<Technician>, date: string)
    requires Admissible(user, slot, techName, techs)
    ensures var r := BuildBooking(user, slot, selected, SummaryOf(selected), techName, techs, date);
            && r.Success?
            && r.value.services == ServiceNames(selected)
            && r.value.duration == TotalDuration(selected) && r.value.price == TotalPrice(selected)
            && (r.value.status == Pending <==> exists i :: 0 <= i < |selected| && selected[i].requiresConfirmation)
  {
  }

  /**
   * A client ticks one 60-minute service that needs confirmation, so the
   * summary shows 60 minutes; the checkboxes are then redrawn (a catalogue
   * update, or coming back to the booking view), which unchecks it but
   * keeps the summary, the grid and the selected slot. Booking now writes
   * a confirmed record with no services and 60 minutes, where booking
   * before the redraw gives a pending one.
   */
  lemma {:induction false} RedrawnFormBooksNoServices(u: User, t: Technician, s: Service, date: string)
    requires u.role == Client && t.name == "alice"
    requires s.duration == 60 && s.requiresConfirmation
    ensures var before := BuildBooking(Some(u), Some(600), [s], SummaryOf([s]), "alice", [t], date);
            before.Success? && before.value.status == Pending && before.value.duration == 60
    ensures var after := BuildBooking(Some(u), Some(600), [], SummaryOf([s]), "alice", [t], date);
            && after.Success? && after.value.services == [] && after.value.status == Confirmed
            && after.value.duration == 60
  {
    assert TotalDuration([s]) == 60 by {
      assert [s][1..] == [];
    }
    assert [s][0].requiresConfirmation;
  }

  /**
   * Booking a start that is open for the duration the summary shows keeps
   * the no-overlap invariant of the appointment list. The grid is built
   * for the checked services' total, so this covers a start offered for
   * the selection being booked while the summary is in step with it.
   */
  lemma {:induction false} OfferedSlotKeepsNoOverlap(appts: seq<Appointment>, user: Option<User>, selected: seq<Service>,
                                  summary: Summary, techName: string, techs: seq<Technician>, date: string, slot: nat)
    requires NoOverlap(appts)
    requires IsOpenSlot(appts, techName, date, summary.duration, Limit(user), slot)
    requires Admissible(user, Some(slot), techName, techs)
    ensures BuildBooking(user, Some(slot), selected, summary, techName, techs, date).Success?
    ensures NoOverlap(appts + [BuildBooking(user, Some(slot), selected, summary, techName, techs, date).value])
  {
    var b := BuildBooking(user, Some(slot), selected, summary, techName, techs, date).value;
    FreeBookingKeepsNoOverlap(appts, b, slot);
  }

  /**
   * Ticking another service after picking a slot updates the summary but
   * not the grid, and the handler does not re-run the busy check. A 10:00
   * start offered for 30 minutes next to a 10:30-11:30 booking is then
   * written for 90 minutes, and the two bookings clash.
   */
  lemma {:induction false} StaleSlotDoubleBooks(u: User, t: Technician, x: Appointment, s1: Service, s2: Service)
    requires u.role == Client && t.name == "alice"
    requires x.tech == "alice" && x.date == "d" && x.status == Confirmed
    requires x.time == FormatMinsToTime(630) && x.duration == 60
    requires s1.duration == 30 && s2.duration == 60
    ensures IsOpenSlot([x], "alice", "d", TotalDuration([s1]), Limit(Some(u)), 600)
    ensures BuildBooking(Some(u), Some(600), [s1, s2], SummaryOf([s1, s2]), "alice", [t], "d").Success?
    ensures !NoOverlap([x] + [BuildBooking(Some(u), Some(600), [s1, s2], SummaryOf([s1, s2]), "alice", [t], "d").value])
  {
    assert TimeToMins(x.time) == Some(630) by {
      RoundTrip(630);
    }
    TwoServiceTotals(s1, s2);
    assert IsOpenSlot([x], "alice", "d", TotalDuration([s1]), Limit(Some(u)), 600) by {
      assert !Blocks([x][0], "alice", "d", 600, 30);
    }
    assert Admissible(Some(u), Some(600), "alice", [t]) by {
      assert [t][0].name == "alice";
    }
    LiveBookingAt(Some(u), 600, [s1, s2], SummaryOf([s1, s2]), "alice", [t], "d");
    var b := BuildBooking(Some(u), Some(600), [s1, s2], SummaryOf([s1, s2]), "alice", [t], "d").value;
    OverlapBreaksNoOverlap(x, b, 630, 600);
  }

  /** A booking that passes the checks is live, on the booked technician and date, at the slot. */
  lemma {:induction false} LiveBookingAt(user: Option<User>, slot: nat, selected: seq<Service>, summary: Summary,
                                         techName: string, techs: seq<Technician>, date: string)
    requires Admissible(user, Some(slot), techName, techs)
    ensures var r := BuildBooking(user, Some(slot), selected, summary, techName, techs, date);
            && r.Success? && TimeToMins(r.value.time) == Some(slot) && r.value.duration == summary.duration
            && r.value.tech == techName && r.value.date == date && r.value.status != Cancelled
  {
  }

  /** Two live bookings of one technician and date whose intervals overlap violate no-overlap. */
  lemma {:induction false} OverlapBreaksNoOverlap(x: Appointment, b: Appointment, sx: int, sb: int)
    requires x.tech == b.tech && x.date == b.date && x.status != Cancelled && b.status != Cancelled
    requires TimeToMins(x.time) == Some(sx) && TimeToMins(b.time) == Some(sb)
    requires sx < sb + b.duration && sb < sx + x.duration
    ensures !NoOverlap([x] + [b])
  {
    assert Clash(([x] + [b])[0], ([x] + [b])[1]);
  }

  /** The totals of a one- and a two-service selection. */
  lemma {:induction false} TwoServiceTotals(s1: Service, s2: Service)
    ensures TotalDuration([s1]) == s1.duration && TotalDuration([s1, s2]) == s1.duration + s2.duration
  {
    assert [s1, s2][1..] == [s2];
    assert [s2][1..] == [] && [s1][1..] == [];
  }

  /**
   * The same gap at the end of the day: 18:30 offered for 30 minutes is
   * written for 90 minutes and runs past closing time.
   */
  lemma {:induction false} StaleSlotPastClosing(u: User, t: Technician, s1: Service, s2: Service)
    requires u.role == Client && t.name == "alice"
    requires s1.duration == 30 && s2.duration == 60
    ensures IsOpenSlot([], "alice", "d", TotalDuration([s1]), Limit(Some(u)), 1110)
    ensures BuildBooking(Some(u), Some(1110), [s1, s2], SummaryOf([s1, s2]), "alice", [t], "d").Success?
    ensures 1110 + BuildBooking(Some(u), Some(1110), [s1, s2], SummaryOf([s1, s2]), "alice", [t], "d").value.duration
            > ClosingMinute
  {
    TwoServiceTotals(s1, s2);
    assert OnGrid(1110);
  }

  /**
   * Booking a start the grid offered for the very services that are booked,
   * with the summary in step with them, gives a client booking that ends
   * by closing time.
   */
  lemma {:induction false} OfferedBookingEndsByClosing(user: Option<User>, weekday: int, techName: string, date: string,
                                    selected: seq<Service>, appts: seq<Appointment>, starts: seq<int>, techs: seq<Technician>, slot: nat)
    requires GenerateSlots(user, weekday, techName, date, TotalDuration(selected), appts) == Available(starts)
    requires slot in starts
    requires Admissible(user, Some(slot), techName, techs)
    ensures BuildBooking(user, Some(slot), selected, SummaryOf(selected), techName, techs, date).Success?
    ensures slot + BuildBooking(user, Some(slot), selected, SummaryOf(selected), techName, techs, date).value.duration
            <= ClosingMinute
  {
    assert IsOpenSlot(appts, techName, date, TotalDuration(selected), Limit(user), slot);
    assert Limit(user) == ClosingMinute;
  }

  /**
   * Once written, a booking of services with positive durations occupies
   * its own start: the recomputed grid no longer offers it for any
   * booking of positive length.
   */
  lemma {:induction false} BookedSlotBecomesBusy(appts: seq<Appointment>, user: Option<User>, slot: nat, selected: seq<Service>,
                              techName: string, techs: seq<Technician>, date: string, total: int)
    requires Admissible(user, Some(slot), techName, techs)
    requires |selected| > 0 && forall i :: 0 <= i < |selected| ==> selected[i].duration > 0
    requires total > 0
    ensures BuildBooking(user, Some(slot), selected, SummaryOf(selected), techName, techs, date).Success?
    ensures var b := BuildBooking(user, Some(slot), selected, SummaryOf(selected), techName, techs, date).value;
            IsBusy(appts + [b], techName, date, slot, total)
  {
    PositiveDurations(selected);
    var b := BuildBooking(user, Some(slot), selected, SummaryOf(selected), techName, techs, date).value;
    assert (appts + [b])[|appts|] == b;
    assert Blocks(b, techName, date, slot, total);
  }

  /**
   * The handler only looks the technician up by name: a technician with no
   * skills at all is accepted for any selection.
   */
  lemma {:induction false} NoSkillRecheck(user: User, slot: nat, selected: seq<Service>, summary: Summary, t: Technician,
                                          date: string)
    requires user.role == Client && t.skills == []
    ensures BuildBooking(Some(user), Some(slot), selected, summary, t.name, [t], date).Success?
  {
  }

  /** A selection holding one service that needs approval is always pending. */
  lemma {:induction false} ApprovalMakesPending(user: Option<User>, slot: Option<nat>, a: seq<Service>, s: Service, b: seq<Service>,
                             summary: Summary, techName: string, techs: seq<Technician>, date: string)
    requires s.requiresConfirmation && Admissible(user, slot, techName, techs)
    ensures BuildBooking(user, slot, a + [s] + b, summary, techName, techs, date).Success?
    ensures BuildBooking(user, slot, a + [s] + b, summary, techName, techs, date).value.status == Pending
  {
    assert (a + [s] + b)[|a|] == s;
  }

  /**
   * A start the grid offered is open: the no-overlap lemma above applies to
   * every slot the client can click.
   */
  lemma {:induction false} OfferedSlotIsOpen(user: Option<User>, weekday: int, techName: string, date: string, selected: seq<Service>,
                          appts: seq<Appointment>, starts: seq<int>, slot: int)
    requires GenerateSlots(user, weekday, techName, date, TotalDuration(selected), appts) == Available(starts)
    requires slot in starts
    ensures slot >= OpeningMinute && IsOpenSlot(appts, techName, date, TotalDuration(selected), Limit(user), slot)
  {
  }
}
