/**
 * `checkTechBusy`: does a candidate interval [start, start + duration)
 * overlap a live appointment of the same technician on the same date?
 */
module Conflicts {
  import opened Wrappers
  import opened Clock
  import opened Salon

  /**
   * One appointment makes the candidate busy: same date and technician, not
   * cancelled, and the half-open intervals overlap. An appointment whose
   * time does not parse yields NaN bounds, and every comparison with NaN
   * is false, so it never blocks.
   */
  predicate Blocks(a: Appointment, tech: string, date: string, start: int, duration: int) {
    && a.date == date
    && a.tech == tech
    && a.status != Cancelled
    && match TimeToMins(a.time)
       case None => false
       case Some(s) => start < s + a.duration && start + duration > s
  }

  /** `checkTechBusy(tech, date, startMins, duration)` over the appointment list. */
  function IsBusy(appts: seq<Appointment>, tech: string, date: string, start: int, duration: int): (busy: bool)
    ensures busy <==> exists i :: 0 <= i < |appts| && Blocks(appts[i], tech, date, start, duration)
  {
    if appts == [] then false
    else if Blocks(appts[0], tech, date, start, duration) then true
    else
      var busy := IsBusy(appts[1..], tech, date, start, duration);
      assert busy ==> exists i :: 0 <= i < |appts| && Blocks(appts[i], tech, date, start, duration) by {
        if busy {
          var i :| 0 <= i < |appts[1..]| && Blocks(appts[1..][i], tech, date, start, duration);
          assert appts[i + 1] == appts[1..][i];
        }
      }
      assert (exists i :: 0 <= i < |appts| && Blocks(appts[i], tech, date, start, duration)) ==> busy by {
        if exists i :: 0 <= i < |appts| && Blocks(appts[i], tech, date, start, duration) {
          var i :| 0 <= i < |appts| && Blocks(appts[i], tech, date, start, duration);
          assert i > 0;
          assert appts[1..][i - 1] == appts[i];
        }
      }
      busy
  }

  /** Two live appointments of one technician on one date whose intervals overlap. */
  predicate Clash(a: Appointment, b: Appointment) {
    && a.tech == b.tech
    && a.date == b.date
    && a.status != Cancelled
    && b.status != Cancelled
    && match (TimeToMins(a.time), TimeToMins(b.time))
       case (Some(sa), Some(sb)) => sa < sb + b.duration && sb < sa + a.duration
       case _ => false
  }

  /** The booking invariant: no two appointments in the list clash. */
  ghost predicate NoOverlap(appts: seq<Appointment>) {
    forall i, j :: 0 <= i < j < |appts| ==> !Clash(appts[i], appts[j])
  }

  /**
   * For a live appointment `b` starting at `s`, the busy check on b's own
   * technician, date and interval is exactly "some listed appointment
   * clashes with b".
   */
  lemma {:induction false} BusyIffClash(appts: seq<Appointment>, b: Appointment, s: int)
    requires TimeToMins(b.time) == Some(s) && b.status != Cancelled
    ensures IsBusy(appts, b.tech, b.date, s, b.duration) <==>
            exists i :: 0 <= i < |appts| && Clash(appts[i], b)
  {
    forall i | 0 <= i < |appts|
      ensures Blocks(appts[i], b.tech, b.date, s, b.duration) <==> Clash(appts[i], b)
    {
    }
  }

  /**
   * Adding an appointment at a start the busy check found free keeps
   * the no-overlap invariant.
   */
  lemma {:induction false} FreeBookingKeepsNoOverlap(appts: seq<Appointment>, b: Appointment, s: int)
    requires NoOverlap(appts)
    requires TimeToMins(b.time) == Some(s) && b.status != Cancelled
    requires !IsBusy(appts, b.tech, b.date, s, b.duration)
    ensures NoOverlap(appts + [b])
  {
    BusyIffClash(appts, b, s);
    var all := appts + [b];
    forall i, j | 0 <= i < j < |all| ensures !Clash(all[i], all[j]) {
      if j == |appts| {
        assert all[j] == b && all[i] == appts[i];
      } else {
        assert all[i] == appts[i] && all[j] == appts[j];
      }
    }
  }

  /** A cancelled appointment never changes the busy verdict. */
  lemma {:induction false} CancelledIgnored(appts: seq<Appointment>, c: Appointment, tech: string, date: string, start: int, duration: int)
    requires c.status == Cancelled
    ensures IsBusy(appts + [c], tech, date, start, duration) == IsBusy(appts, tech, date, start, duration)
  {
    var all := appts + [c];
    if IsBusy(all, tech, date, start, duration) {
      var i :| 0 <= i < |all| && Blocks(all[i], tech, date, start, duration);
      assert i < |appts| && all[i] == appts[i];
    }
    if IsBusy(appts, tech, date, start, duration) {
      var i :| 0 <= i < |appts| && Blocks(appts[i], tech, date, start, duration);
      assert all[i] == appts[i];
    }
  }

  /**
   * Touching is not overlapping: when every live appointment of the
   * technician on the date ends at or before the candidate's start, or
   * starts at or after its end, the candidate is free.
   */
  lemma {:induction false} TouchingIsFree(appts: seq<Appointment>, tech: string, date: string, start: int, duration: int)
    requires forall i :: 0 <= i < |appts| ==> Separated(appts[i], tech, date, start, duration)
    ensures !IsBusy(appts, tech, date, start, duration)
  {
  }

  /** An appointment of another technician or date, cancelled, unparsable, or disjoint (touching allowed). */
  predicate Separated(a: Appointment, tech: string, date: string, start: int, duration: int) {
    || a.tech != tech
    || a.date != date
    || a.status == Cancelled
    || match TimeToMins(a.time)
       case None => true
       case Some(s) => s + a.duration <= start || start + duration <= s
  }

  /**
   * An appointment stored with the rendered form of `s` and a positive
   * duration makes its own interval busy, whatever else is listed.
   */
  lemma {:induction false} OwnIntervalBusy(appts: seq<Appointment>, k: nat, s: nat)
    requires k < |appts|
    requires appts[k].time == FormatMinsToTime(s) && appts[k].status != Cancelled
    requires appts[k].duration > 0
    ensures IsBusy(appts, appts[k].tech, appts[k].date, s, appts[k].duration)
  {
    RoundTrip(s);
    assert Blocks(appts[k], appts[k].tech, appts[k].date, s, appts[k].duration);
  }

  /**
   * Bookings at 10:00-10:30 and 10:30-11:30: 10:00 for 30 minutes is busy
   * (its own booking). A 10:30 candidate of 30 minutes only touches the
   * first booking, so against it alone it is free; it does overlap the
   * second booking, which starts at 10:30 too.
   */
  lemma {:induction false} TouchingExample(a: Appointment, b: Appointment)
    requires a.tech == "alice" && b.tech == "alice" && a.date == "2024-05-06" && b.date == "2024-05-06"
    requires a.status == Confirmed && b.status == Confirmed
    requires a.time == FormatMinsToTime(600) && a.duration == 30
    requires b.time == FormatMinsToTime(630) && b.duration == 60
    ensures IsBusy([a, b], "alice", "2024-05-06", 600, 30)
    ensures !IsBusy([a], "alice", "2024-05-06", 630, 30)
    ensures IsBusy([a, b], "alice", "2024-05-06", 630, 30)
  {
    assert TimeToMins(a.time) == Some(600) by {
      RoundTrip(600);
    }
    assert TimeToMins(b.time) == Some(630) by {
      RoundTrip(630);
    }
    assert IsBusy([a, b], "alice", "2024-05-06", 600, 30) by {
      assert Blocks([a, b][0], "alice", "2024-05-06", 600, 30);
    }
    assert !IsBusy([a], "alice", "2024-05-06", 630, 30) by {
      assert !Blocks([a][0], "alice", "2024-05-06", 630, 30);
    }
    assert Blocks([a, b][1], "alice", "2024-05-06", 630, 30);
  }
}
