/**
 * The admin scheduler grid (`renderAdminScheduler`): one row per quarter
 * hour of opening time, one column per shown technician, and a block per
 * matching confirmed appointment placed by its start and length.
 */
module Scheduler {
  import opened Wrappers
  import opened Seqs
  import opened Clock
  import opened Salon
  import Slots

  /** The number of quarter hours between opening and closing time. */
  const TotalSlots: int := ((ClosingHour - OpeningHour) * 60) / 15

  /** A time row: its CSS grid row, start minute, hour label and quick-add time. */
  datatype Row = Row(gridRow: int, minutes: nat, hourLabel: string, cellTime: string)

  /**
   * Row `i`: the quick-add time is the row's minute written the way the
   * slot grid writes its starts, so quick-add finds the matching slot by
   * its text; it parses back to the row's minute, and only whole hours
   * carry a label.
   */
  function RowAt(i: nat): (row: Row)
    ensures row.gridRow == i + 2 && row.minutes == OpeningMinute + i * 15
    ensures row.cellTime == FormatMinsToTime(row.minutes)
    ensures TimeToMins(row.cellTime) == Some(row.minutes)
    ensures row.hourLabel != "" <==> row.minutes % 60 == 0
    ensures row.hourLabel != "" ==> row.hourLabel == row.cellTime
  {
    var mins := OpeningMinute + i * 15;
    RoundTrip(mins);
    Row(i + 2, mins, if mins % 60 == 0 then FormatMinsToTime(mins) else "", FormatMinsToTime(mins))
  }

  /** One row per quarter hour, from opening time to closing time inclusive. */
  function Rows(): (rows: seq<Row>)
    ensures |rows| == TotalSlots + 1 == 37
    ensures forall i :: 0 <= i < |rows| ==> OpeningMinute <= rows[i].minutes <= ClosingMinute
    ensures forall i :: 0 <= i < |rows| ==> rows[i] == RowAt(i)
  {
    seq(TotalSlots + 1, i requires 0 <= i => RowAt(i))
  }

  /**
   * The three filters; "" means no date filter and "all" no technician or
   * service filter. The page turns an empty technician or service choice
   * into "all" before filtering, so callers pass these normalised values.
   */
  datatype Filters = Filters(date: string, tech: string, service: string)

  /** `techsToShow`. */
  function TechsToShow(techs: seq<Technician>, f: Filters): (shown: seq<Technician>)
    ensures f.tech == "all" ==> shown == techs
    ensures f.tech != "all" ==> forall t :: t in shown <==> t in techs && t.name == f.tech
  {
    if f.tech == "all" then techs else Filter(techs, (t: Technician) => t.name == f.tech)
  }

  /** The column of the first shown technician with that name, -1 when absent. */
  function ColumnIndex(shown: seq<Technician>, name: string): (k: int)
    ensures -1 <= k < |shown|
    ensures k == -1 <==> forall i :: 0 <= i < |shown| ==> shown[i].name != name
    ensures k >= 0 ==> shown[k].name == name && forall i :: 0 <= i < k ==> shown[i].name != name
  {
    if shown == [] then -1
    else if shown[0].name == name then 0
    else
      var k := ColumnIndex(shown[1..], name);
      if k == -1 then -1 else k + 1
  }

  /** The number of quarter hours `d` minutes take, rounded up, for an integer `d`. */
  function QuarterHoursCeil(d: int): (q: int)
    ensures q * 15 >= d && (q - 1) * 15 < d
  {
    -((-d) / 15)
  }

  /**
   * Where a block sits: its grid column, its first grid row and how many
   * rows it spans. The first row is `None` when the time does not parse
   * (NaN) or is off the quarter-hour grid (a fractional row no grid line
   * matches).
   */
  datatype Block = Block(column: int, startRow: Option<int>, span: int)

  predicate Matches(a: Appointment, f: Filters) {
    && a.status == Confirmed
    && (f.date == "" || a.date == f.date)
    && (f.tech == "all" || a.tech == f.tech)
    && (f.service == "all" || f.service in a.services)
  }

  /** The block drawn for one appointment, if any. */
  function BlockFor(a: Appointment, shown: seq<Technician>, f: Filters): (b: Option<Block>)
    ensures b.Some? <==> Matches(a, f) && exists i :: 0 <= i < |shown| && shown[i].name == a.tech
    ensures b.Some? ==> 2 <= b.value.column < |shown| + 2 && shown[b.value.column - 2].name == a.tech
    ensures b.Some? ==> b.value.span * 15 >= a.duration > (b.value.span - 1) * 15
    ensures b.Some? && b.value.startRow.Some? ==>
              TimeToMins(a.time).Some? && TimeToMins(a.time).value == OpeningMinute + (b.value.startRow.value - 2) * 15
  {
    if !Matches(a, f) then None
    else
      var col := ColumnIndex(shown, a.tech);
      if col == -1 then None
      else
        var row := match TimeToMins(a.time)
          case None => None
          case Some(m) => if (m - OpeningMinute) % 15 == 0 then Some((m - OpeningMinute) / 15 + 2) else None;
        Some(Block(col + 2, row, QuarterHoursCeil(a.duration)))
  }

  /**
   * A matching booking made at a start the slot grid offers within opening
   * hours sits on the row showing that start.
   */
  lemma {:induction false} BookingSitsOnItsRow(a: Appointment, shown: seq<Technician>, f: Filters, s: nat)
    requires a.time == FormatMinsToTime(s) && Slots.OnGrid(s) && s <= ClosingMinute
    requires Matches(a, f) && exists i :: 0 <= i < |shown| && shown[i].name == a.tech
    ensures BlockFor(a, shown, f).Some?
    ensures var row := BlockFor(a, shown, f).value.startRow;
            && row.Some?
            && 0 <= row.value - 2 < |Rows()|
            && Rows()[row.value - 2].minutes == s
  {
    var k := (s - OpeningMinute) / 15;
    assert 0 <= k <= TotalSlots && OpeningMinute + k * 15 == s;
    assert TimeToMins(a.time) == Some(s) by {
      RoundTrip(s);
    }
    StartRowOnGrid(a, shown, f, s);
    assert Rows()[k].minutes == s by {
      assert Rows()[k] == RowAt(k);
    }
  }

  lemma {:induction false} StartRowOnGrid(a: Appointment, shown: seq<Technician>, f: Filters, s: int)
    requires TimeToMins(a.time) == Some(s) && Slots.OnGrid(s)
    requires BlockFor(a, shown, f).Some?
    ensures BlockFor(a, shown, f).value.startRow == Some((s - OpeningMinute) / 15 + 2)
  {
  }

  /** What the grid shows. */
  datatype SchedulerView =
    | Loading                 // the roster has not arrived
    | NoTechniciansMatch      // the technician filter leaves nobody
    | Grid(columns: seq<Technician>, rows: seq<Row>, blocks: seq<Block>)

  function BlocksOf(appts: seq<Appointment>, shown: seq<Technician>, f: Filters): (blocks: seq<Block>)
    ensures |blocks| <= |appts|
    ensures forall i :: 0 <= i < |appts| && BlockFor(appts[i], shown, f).Some? ==> BlockFor(appts[i], shown, f).value in blocks
    ensures forall b :: b in blocks ==> exists i :: 0 <= i < |appts| && BlockFor(appts[i], shown, f) == Some(b)
  {
    if appts == [] then []
    else
      var rest := BlocksOf(appts[1..], shown, f);
      assert forall i :: 1 <= i < |appts| ==> appts[i] == appts[1..][i - 1];
      assert forall b :: b in rest ==> exists i :: 0 <= i < |appts| && BlockFor(appts[i], shown, f) == Some(b) by {
        forall b | b in rest ensures exists i :: 0 <= i < |appts| && BlockFor(appts[i], shown, f) == Some(b) {
          var i :| 0 <= i < |appts[1..]| && BlockFor(appts[1..][i], shown, f) == Some(b);
          assert BlockFor(appts[i + 1], shown, f) == Some(b);
        }
      }
      match BlockFor(appts[0], shown, f)
      case None => rest
      case Some(b) => [b] + rest
  }

  /** `renderAdminScheduler`. */
  function Schedule(techs: seq<Technician>, appts: seq<Appointment>, f: Filters): (v: SchedulerView)
    ensures v == Loading <==> techs == []
    ensures v == NoTechniciansMatch <==> techs != [] && TechsToShow(techs, f) == []
    ensures v.Grid? ==> v.columns == TechsToShow(techs, f) && v.rows == Rows() && |v.rows| == 37
    ensures v.Grid? ==> forall i :: 0 <= i < |appts| && BlockFor(appts[i], v.columns, f).Some? ==>
                          BlockFor(appts[i], v.columns, f).value in v.blocks
    ensures v.Grid? ==> forall b :: b in v.blocks ==>
                          exists i :: 0 <= i < |appts| && BlockFor(appts[i], v.columns, f) == Some(b)
  {
    if techs == [] then Loading
    else
      var shown := TechsToShow(techs, f);
      if shown == [] then NoTechniciansMatch
      else Grid(shown, Rows(), BlocksOf(appts, shown, f))
  }
}
