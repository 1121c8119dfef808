/** Which stored notifications `checkForNewNotifications` shows to the signed-in user. */
module Notifications {
  import opened Wrappers
  import opened Seqs
  import opened Salon

  /**
   * A stored notification: read flag, whether it is for admins, and the
   * specialist name it is addressed to, if any.
   */
  datatype Notification = Notification(title: string, message: string, read: bool, forAdmin: bool, forSpecialist: Option<string>)

  /** Unread, and addressed to admins (for an admin) or to this user's name. */
  predicate AddressedTo(n: Notification, user: User) {
    !n.read && ((n.forAdmin && user.role == Admin) || n.forSpecialist == Some(user.name))
  }

  /** The notifications shown; a guest sees none. */
  function NotificationsFor(notifs: seq<Notification>, user: Option<User>): (r: seq<Notification>)
    ensures user.None? ==> r == []
    ensures user.Some? ==> forall n :: n in r <==> n in notifs && AddressedTo(n, user.value)
    ensures forall n :: n in r ==> !n.read
  {
    if user.None? then [] else Filter(notifs, n => AddressedTo(n, user.value))
  }

  /** The service names joined with a comma and a space. */
  function JoinComma(parts: seq<string>): string {
    if parts == [] then ""
    else if |parts| == 1 then parts[0]
    else parts[0] + ", " + JoinComma(parts[1..])
  }

  /**
   * `sendBookingNotification`: the unread notice written for a new booking,
   * addressed to the admins and to the booked technician by name.
   */
  function BookingNotification(b: Appointment): (n: Notification)
    ensures !n.read && n.forAdmin && n.forSpecialist == Some(b.tech)
    ensures b.status == Pending ==> n.title == "📋 New Booking Request"
    ensures b.status != Pending ==> n.title == "✅ New Booking Confirmed"
  {
    Notification(
      if b.status == Pending then "📋 New Booking Request" else "✅ New Booking Confirmed",
      b.name + " booked " + JoinComma(b.services) + " with " + b.tech,
      false, true, Some(b.tech))
  }

  /**
   * The notice about a booking reaches exactly the admins and the user whose
   * name is the booked technician.
   */
  lemma {:induction false} BookingNoticeAudience(b: Appointment, notifs: seq<Notification>, user: User)
    ensures var n := BookingNotification(b);
            n in NotificationsFor(notifs + [n], Some(user)) <==> user.role == Admin || user.name == b.tech
  {
    var n := BookingNotification(b);
    assert n in notifs + [n];
  }

  /** An admin-wide notification never reaches a client or specialist unless it names them. */
  lemma {:induction false} AdminOnlyStaysWithAdmins(notifs: seq<Notification>, user: User)
    requires user.role != Admin
    ensures forall n :: n in NotificationsFor(notifs, Some(user)) ==> n.forSpecialist == Some(user.name)
  {
  }
}
