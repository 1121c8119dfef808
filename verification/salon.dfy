/**
 * The records the booking engine works on and the salon's fixed settings.
 * Records mirror the JSON objects kept in the data store; a field the store
 * may leave out is an Option, or "" where the source treats "" and a missing
 * value alike.
 */
module Salon {
  import opened Wrappers

  /** `APP_SETTINGS`: opening and closing hour, slot granularity in minutes. */
  const OpeningHour: int := 10
  const ClosingHour: int := 19
  const SlotInterval: int := 15

  /** The first slot start, and the limit of a non-admin's slot grid. */
  const OpeningMinute: int := OpeningHour * 60
  const ClosingMinute: int := ClosingHour * 60
  /**
   * An admin's slot grid runs to midnight; the booking button still
   * refuses admins (script.js:545).
   */
  const DayEndMinute: int := 1440

  /** The roles an account can have; any other role is logged out on sign-in. */
  datatype Role = Admin | Specialist | Client

  /** The signed-in account (`currentUser`); a guest is `None`. */
  datatype User = User(uid: string, name: string, phone: string, email: string, role: Role)

  /** An entry of the service catalogue. `category` is "" when missing. */
  datatype Service = Service(
    id: string,
    name: string,
    category: string,
    duration: int,
    price: int,
    requiresConfirmation: bool)

  /**
   * A staff member. `skills` holds service ids; a missing or non-array skill
   * list is the empty sequence. `userId` links the staff account, if any.
   */
  datatype Technician = Technician(name: string, userId: Option<string>, skills: seq<string>)

  /** What the add-service form guarantees of a catalogue entry it creates. */
  predicate ValidService(s: Service) {
    s.name != "" && s.duration > 0 && s.price >= 0
  }

  datatype Status = Pending | Confirmed | Cancelled

  /**
   * A booking. `tech` is the technician's name (matched by value), `time`
   * the rendered start "H:MM", `duration` and `price` the totals the
   * booking summary showed.
   */
  datatype Appointment = Appointment(
    name: string,
    phone: string,
    email: string,
    userId: string,
    specialistId: string,
    services: seq<string>,
    serviceIds: seq<string>,
    tech: string,
    time: string,
    duration: int,
    price: int,
    date: string,
    status: Status)

  /** A signed-in user whose role is admin. */
  predicate IsAdmin(user: Option<User>) {
    user.Some? && user.value.role == Admin
  }

  /**
   * A signed-in user whose role is not admin.
   * A guest is neither an admin nor this, which is how guests slip past the
   * Sunday and laser rules.
   */
  predicate IsSignedInNonAdmin(user: Option<User>) {
    user.Some? && user.value.role != Admin
  }
}
