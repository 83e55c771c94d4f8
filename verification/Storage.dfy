/** The tables as mutable state, shared by the services and the workers. */
module Storage {
  import opened Tables

  class Database {
    var slots: Slots
    var bookings: Bookings
    var reminders: Reminders
    var keys: Keys

    constructor (db: Db)
      ensures Contents() == db
    {
      slots, bookings, reminders, keys := db.slots, db.bookings, db.reminders, db.keys;
    }

    /** ROLLBACK to what the tables held at BEGIN. */
    method Rollback(before: Db)
      modifies this
      ensures Contents() == before
    {
      slots, bookings, reminders, keys := before.slots, before.bookings, before.reminders, before.keys;
    }

    function Contents(): Db
      reads this
    {
      Db(slots, bookings, reminders, keys)
    }
  }
}
