/** The two tables the quota ledger works on, and the values stored in them. */
module Tables {

  datatype Option<+T> = None | Some(value: T) {
    /** The value, or `default` when there is none. */
    function GetOr(default: T): T {
      match this
      case Some(v) => v
      case None => default
    }
  }

  /** The `users.id` column (INTEGER PRIMARY KEY AUTOINCREMENT). */
  type UserId = nat

  /**
   * A calendar day, written as the number YYYYMMDD. The server stores dates
   * as fixed-width `YYYY-MM-DD` text and compares them as text; for such
   * strings that order is the numeric order of YYYYMMDD.
   */
  type Date = nat

  /** The key of the `usage` table: UNIQUE(user_id, date). */
  type Key = (UserId, Date)

  const Student: string := "student"
  const AdminRole: string := "admin"
  const SuperAdmin: string := "super_admin"

  /**
   * One row of `users`, without the password hash and the creation time.
   * `isActive` is the INTEGER column that the server writes as 1 or 0.
   */
  datatype User = User(email: string, name: string, role: string, dailyMinutes: real, isActive: int)

  /** One row of `usage` (its key is held by the map). */
  datatype Row = Row(minutesUsed: real, messagesCount: nat)
}
