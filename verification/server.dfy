/**
 * The server's two tables and the endpoints that read and change them:
 * the quota-limited chat proxy, the caller's usage summary, and the
 * administrators' create, update and delete of users.
 */
module Server {
  import opened Tables
  import opened Quota
  import opened Admin

  /** The identity the token verification yields: the caller's id and role. */
  datatype Caller = Caller(id: UserId, role: string)

  /** The answers of `POST /api/chat`. */
  datatype ChatReply =
    | BadRequest                                                      // no `messages` array
    | ServerError                                                     // the handler's catch
    | QuotaExceeded(dailyLimit: real, usedToday: real, remaining: real)
    | UpstreamFailed(status: int)                                     // forwarded upstream status
    | Answered(info: UsageInfo)
  {
    function Status(): int {
      match this
      case BadRequest => 400
      case ServerError => 500
      case QuotaExceeded(_, _, _) => 429
      case UpstreamFailed(s) => s
      case Answered(_) => 200
    }
  }

  /** The answers of `GET /api/usage/me`; `history` holds the month's rows by date. */
  datatype SummaryReply =
    | SummaryFailed
    | Summary(today: Row, monthlyTotal: real, dailyLimit: real, remainingToday: real, history: map<Date, Row>)

  /** Why an admin request is refused. */
  datatype AdminError =
    | AccessDenied          // requireAdmin
    | SuperAdminOnly        // requireSuperAdmin
    | AdminCreationDenied   // only a super admin creates admins
    | RoleChangeDenied      // only a super admin changes roles
    | MissingData
    | EmailTaken
    | NothingToUpdateError
    | CannotDeleteSelf
    | UserNotFound
  {
    function Status(): int {
      match this
      case AccessDenied | SuperAdminOnly | AdminCreationDenied | RoleChangeDenied => 403
      case MissingData | EmailTaken | NothingToUpdateError | CannotDeleteSelf => 400
      case UserNotFound => 404
    }
  }

  /** The answers of the admin endpoints. */
  datatype AdminReply =
    | Done
    | Created(id: UserId, role: string, dailyMinutes: real)
    | Refused(error: AdminError)

  /** A create-user request; `None` is a field left out of the body. */
  datatype NewUser = NewUser(email: Option<string>, password: Option<string>, name: Option<string>,
                             role: Option<string>, dailyMinutes: Option<real>)

  /** The `users` and `usage` tables, and the AUTOINCREMENT counter of `users.id`. */
  class Ledger {
    var users: map<UserId, User>
    var usage: map<Key, Row>
    var nextId: nat

    /**
     * Ids are below the counter; every usage row belongs to a user and
     * records at least one charged message; `is_active` is 1 or 0; no two
     * users share an email (the UNIQUE constraint).
     */
    ghost predicate Valid()
      reads this
    {
      && (forall id :: id in users ==> id < nextId)
      && (forall k :: k in usage ==> k.0 in users)
      && RowsValid(usage)
      && (forall id :: id in users ==> users[id].isActive == 0 || users[id].isActive == 1)
      && (forall a, b :: a in users && b in users && a != b ==> users[a].email != users[b].email)
    }

    /** A fresh database: the super admin with 999999 daily minutes, and no usage. */
    constructor (adminEmail: string)
      ensures Valid()
      ensures users == map[1 := User(adminEmail, "Super Admin", SuperAdmin, 999999.0, 1)]
      ensures usage == map[] && nextId == 2
    {
      users := map[1 := User(adminEmail, "Super Admin", SuperAdmin, 999999.0, 1)];
      usage := map[];
      nextId := 2;
    }

    /**
     * `POST /api/chat`. Admission reads the limit and today's usage (0
     * without a row) and refuses when the usage has reached the limit;
     * otherwise the upstream outcome decides: a reply is charged to today's
     * row and reported from the values read before the call, any failure
     * leaves the table as it was.
     */
    method Chat(caller: Caller, hasMessages: bool, today: Date, upstream: Upstream) returns (reply: ChatReply)
      requires Valid()
      modifies this`usage
      ensures Valid()
      ensures usage != old(usage) <==> reply.Answered?
      ensures !hasMessages ==> reply == BadRequest
      ensures hasMessages && caller.id !in users ==> reply == ServerError
      ensures hasMessages && caller.id in users ==>
                var limit := users[caller.id].dailyMinutes;
                var used := UsedOn(old(usage), (caller.id, today));
                && (reply.QuotaExceeded? <==> used >= limit)
                && (used >= limit ==> reply == QuotaExceeded(limit, used, 0.0))
                && (used < limit && upstream.Rejected? ==> reply == UpstreamFailed(upstream.status))
                && (used < limit && upstream.Threw? ==> reply == ServerError)
                && (used < limit && upstream.Reply? ==>
                      var m := Charge(upstream.inputTokens, upstream.outputTokens);
                      && reply == Answered(Report(limit, used, m))
                      && usage == Accrue(old(usage), (caller.id, today), m))
      ensures reply.Answered? ==> UsedOn(usage, (caller.id, today)) == reply.info.totalUsedToday
    {
      if !hasMessages {
        return BadRequest;
      }
      if caller.id !in users {
        // the joined row is missing and reading its columns throws
        return ServerError;
      }
      var key := (caller.id, today);
      var limit := users[caller.id].dailyMinutes;
      var used := if key in usage then usage[key].minutesUsed else 0.0;
      if used >= limit {
        return QuotaExceeded(limit, used, 0.0);
      }
      match upstream
      case Threw =>
        return ServerError;
      case Rejected(status) =>
        return UpstreamFailed(status);
      case Reply(input, output) =>
        var m := Charge(input, output);
        AccrueKeepsRowsValid(usage, key, m);
        if key in usage {
          usage := usage[key := Row(usage[key].minutesUsed + m, usage[key].messagesCount + 1)];
        } else {
          usage := usage[key := Row(m, 1)];
        }
        reply := Answered(Report(limit, used, m));
    }

    /**
     * `GET /api/usage/me`: today's row (zeros without one), the sum of the
     * month's minutes, the limit and what remains of it today, never below 0.
     */
    method UsageSummary(callerId: UserId, today: Date, firstDay: Date) returns (reply: SummaryReply)
      requires Valid()
      ensures callerId !in users <==> reply == SummaryFailed
      ensures callerId in users ==>
                var todayRow := TodayUsage(usage, callerId, today, firstDay);
                reply == Summary(todayRow, SumMinutes(MonthRows(usage, callerId, firstDay)),
                                 users[callerId].dailyMinutes,
                                 RemainingToday(users[callerId].dailyMinutes, todayRow.minutesUsed),
                                 MonthRows(usage, callerId, firstDay))
    {
      var rows := MonthRows(usage, callerId, firstDay);
      var todayRow := TodayUsage(usage, callerId, today, firstDay);
      var total := 0.0;
      var left := rows;
      while left != map[]
        invariant total + SumMinutes(left) == SumMinutes(rows)
        decreases |left|
      {
        var d :| d in left;
        SumMinutesPick(left, d);
        total := total + left[d].minutesUsed;
        left := left - {d};
      }
      if callerId !in users {
        // `user` is undefined and reading `daily_minutes` throws
        return SummaryFailed;
      }
      var limit := users[callerId].dailyMinutes;
      reply := Summary(todayRow, total, limit, RemainingToday(limit, todayRow.minutesUsed), rows);
    }

    /**
     * `POST /api/admin/users`: an admin creates a user under the next id,
     * with role `student` and 60 minutes unless others are given, and with
     * `is_active` 1.
     */
    method CreateUser(caller: Caller, req: NewUser) returns (reply: AdminReply)
      requires Valid()
      modifies this`users, this`nextId
      ensures Valid()
      ensures !IsAdmin(caller.role) ==> reply == Refused(AccessDenied)
      ensures IsAdmin(caller.role) && !(Truthy(req.email) && Truthy(req.password) && Truthy(req.name)) ==>
                reply == Refused(MissingData)
      ensures IsAdmin(caller.role) && Truthy(req.email) && Truthy(req.password) && Truthy(req.name) ==>
                && (!MayCreateRole(req.role, caller.role) ==> reply == Refused(AdminCreationDenied))
                && (MayCreateRole(req.role, caller.role) && (exists id :: id in old(users) && old(users)[id].email == req.email.value) ==>
                      reply == Refused(EmailTaken))
                && (MayCreateRole(req.role, caller.role) && (forall id :: id in old(users) ==> old(users)[id].email != req.email.value) ==>
                      reply == Created(old(nextId), RoleOrDefault(req.role), MinutesOrDefault(req.dailyMinutes)))
      ensures reply.Created? ==>
                && old(nextId) !in old(users)
                && users == old(users)[old(nextId) := User(req.email.value, req.name.value, reply.role, reply.dailyMinutes, 1)]
                && nextId == old(nextId) + 1
      ensures !reply.Created? ==> users == old(users) && nextId == old(nextId)
    {
      if !IsAdmin(caller.role) {
        return Refused(AccessDenied);
      }
      if !(Truthy(req.email) && Truthy(req.password) && Truthy(req.name)) {
        return Refused(MissingData);
      }
      if !MayCreateRole(req.role, caller.role) {
        return Refused(AdminCreationDenied);
      }
      var email := req.email.value;
      if exists id :: id in users && users[id].email == email {
        return Refused(EmailTaken);
      }
      var role := RoleOrDefault(req.role);
      var minutes := MinutesOrDefault(req.dailyMinutes);
      var id := nextId;
      users := users[id := User(email, req.name.value, role, minutes, 1)];
      nextId := nextId + 1;
      reply := Created(id, role, minutes);
    }

    /**
     * `PUT /api/admin/users/:id`: an admin changes the supplied fields of
     * one user; only a super admin may name a role, a request that changes
     * nothing is refused before the row is looked up.
     */
    method UpdateUser(caller: Caller, target: UserId, patch: Patch) returns (reply: AdminReply)
      requires Valid()
      modifies this`users
      ensures Valid()
      ensures !IsAdmin(caller.role) ==> reply == Refused(AccessDenied)
      ensures IsAdmin(caller.role) && Truthy(patch.role) && !IsSuperAdmin(caller.role) ==>
                reply == Refused(RoleChangeDenied)
      ensures IsAdmin(caller.role) && !(Truthy(patch.role) && !IsSuperAdmin(caller.role)) ==>
                && (NothingToUpdate(patch, caller.role) ==> reply == Refused(NothingToUpdateError))
                && (!NothingToUpdate(patch, caller.role) && target !in old(users) ==> reply == Refused(UserNotFound))
                && (!NothingToUpdate(patch, caller.role) && target in old(users) ==> reply == Done)
      ensures reply == Done ==> users == old(users)[target := Patched(old(users)[target], patch, caller.role)]
      ensures reply != Done ==> users == old(users)
    {
      if !IsAdmin(caller.role) {
        return Refused(AccessDenied);
      }
      if Truthy(patch.role) && !IsSuperAdmin(caller.role) {
        return Refused(RoleChangeDenied);
      }
      var updates := CollectAssignments(patch, caller.role);
      if |updates| == 0 {
        return Refused(NothingToUpdateError);
      }
      if target !in users {
        // `this.changes === 0`
        return Refused(UserNotFound);
      }
      users := users[target := AssignAll(users[target], updates)];
      reply := Done;
    }

    /**
     * `DELETE /api/admin/users/:id`: a super admin deletes another user and,
     * with it, all of that user's usage rows.
     */
    method DeleteUser(caller: Caller, target: UserId) returns (reply: AdminReply)
      requires Valid()
      modifies this`users, this`usage
      ensures Valid()
      ensures !IsSuperAdmin(caller.role) ==> reply == Refused(SuperAdminOnly)
      ensures IsSuperAdmin(caller.role) && target == caller.id ==> reply == Refused(CannotDeleteSelf)
      ensures IsSuperAdmin(caller.role) && target != caller.id && target !in old(users) ==> reply == Refused(UserNotFound)
      ensures reply == Done <==> IsSuperAdmin(caller.role) && target != caller.id && target in old(users)
      ensures reply == Done ==> users == old(users) - {target} && usage == WithoutUser(old(usage), target)
      ensures reply != Done ==> users == old(users) && usage == old(usage)
    {
      if !IsSuperAdmin(caller.role) {
        return Refused(SuperAdminOnly);
      }
      if target == caller.id {
        return Refused(CannotDeleteSelf);
      }
      if target !in users {
        return Refused(UserNotFound);
      }
      users := users - {target};
      usage := WithoutUser(usage, target);
      reply := Done;
    }
  }
}
