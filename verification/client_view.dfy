/**
 * The tabs of the client profile (`renderClientProfile`): the signed-in
 * client's bookings split into upcoming, pending and past, against the
 * current date and minute passed in.
 */
module ClientView {
  import opened Wrappers
  import opened Seqs
  import opened Clock
  import opened Salon

  datatype Tab = UpcomingTab | PendingTab | PastTab

  /** JavaScript's `<` on strings: lexicographic by character, a proper prefix first. */
  function LexLess(a: string, b: string): bool {
    if b == [] then false
    else if a == [] then true
    else if a[0] != b[0] then a[0] < b[0]
    else LexLess(a[1..], b[1..])
  }

  lemma {:induction false} LexLessIrreflexive(a: string)
    ensures !LexLess(a, a)
  {
    if a != [] {
      LexLessIrreflexive(a[1..]);
    }
  }

  lemma {:induction false} LexLessAsymmetric(a: string, b: string)
    ensures LexLess(a, b) ==> !LexLess(b, a)
  {
    if a != [] && b != [] && a[0] == b[0] {
      LexLessAsymmetric(a[1..], b[1..]);
    }
  }

  /** A booking made with the client's email or phone number. */
  predicate IsMine(a: Appointment, user: User) {
    a.email == user.email || a.phone == user.phone
  }

  /**
   * The tab filters. A time that does not parse is NaN, and NaN compared
   * with the current minute is false either way.
   */
  predicate InTab(tab: Tab, a: Appointment, today: string, nowMins: int) {
    match tab
    case UpcomingTab =>
      && a.status == Confirmed
      && !LexLess(a.date, today)
      && (a.date == today ==> TimeToMins(a.time).Some? && TimeToMins(a.time).value > nowMins)
    case PendingTab =>
      a.status == Pending
    case PastTab =>
      || LexLess(a.date, today)
      || (&& a.date == today && a.status == Confirmed
          && TimeToMins(a.time).Some? && TimeToMins(a.time).value <= nowMins)
  }

  /** The bookings listed under `tab`, before sorting. */
  function ClientBookings(appts: seq<Appointment>, user: User, tab: Tab, today: string, nowMins: int): (r: seq<Appointment>)
    ensures forall a :: a in r <==> a in appts && IsMine(a, user) && InTab(tab, a, today, nowMins)
    ensures tab == PendingTab ==> forall a :: a in r ==> a.status == Pending
  {
    var mine := Filter(appts, a => IsMine(a, user));
    Filter(mine, a => InTab(tab, a, today, nowMins))
  }

  /**
   * A confirmed booking whose time parses is listed under exactly one of
   * "upcoming" and "past".
   */
  lemma {:induction false} ConfirmedIsUpcomingXorPast(a: Appointment, today: string, nowMins: int)
    requires a.status == Confirmed && TimeToMins(a.time).Some?
    ensures InTab(UpcomingTab, a, today, nowMins) != InTab(PastTab, a, today, nowMins)
  {
    LexLessIrreflexive(today);
  }

  /** A pending booking is never upcoming, and a dated-past one is past whatever its status. */
  lemma {:induction false} PendingNeverUpcoming(a: Appointment, today: string, nowMins: int)
    ensures a.status == Pending ==> !InTab(UpcomingTab, a, today, nowMins)
    ensures LexLess(a.date, today) ==> InTab(PastTab, a, today, nowMins) && !InTab(UpcomingTab, a, today, nowMins)
  {
  }

  /**
   * A booking dated after today is never past, and, once confirmed, it is
   * upcoming whatever its time.
   */
  lemma {:induction false} FutureDateNeverPast(a: Appointment, today: string, nowMins: int)
    requires LexLess(today, a.date)
    ensures !InTab(PastTab, a, today, nowMins)
    ensures a.status == Confirmed ==> InTab(UpcomingTab, a, today, nowMins)
  {
    LexLessAsymmetric(today, a.date);
    LexLessIrreflexive(today);
  }
}
