# Daily-quota ledger of the voice-agent chat proxy

The server is a thin authenticated proxy in front of a conversational-AI
API. Every user has a daily allowance of minutes (`users.daily_minutes`).
Each answered chat request is charged an estimated number of minutes. The
charge goes into one `usage` row per user and calendar day. This project
models that ledger and the admin rules that act on the same two tables, and
proves properties of the model:

- `tables.dfy` (module `Tables`): the rows of `users` and `usage`. Dates
  are YYYYMMDD numbers. For the fixed-width `YYYY-MM-DD` text that the server
  stores, numeric order equals SQLite's text order.
- `quota.dfy` (module `Quota`): the pure part of the ledger:
  - the charge estimated from the upstream token counts;
  - the upsert that accrues the charge;
  - the totals reported after a chat;
  - the rows and monthly sum of the usage summary;
  - the usage cascade of a deletion.
- `admin.dfy` (module `Admin`): the role gates, the defaults of a created
  user, and the list of column assignments that a partial update is built
  from.
- `server.dfy` (module `Server`): class `Ledger` holds both tables as maps
  plus the AUTOINCREMENT counter. Its methods are the endpoints:
  - `Chat` is `POST /api/chat`;
  - `UsageSummary` is `GET /api/usage/me`;
  - `CreateUser`, `UpdateUser` and `DeleteUser` are the admin endpoints.

`Ledger.Valid()` is the class invariant that every method keeps:
- every usage row belongs to an existing user;
- every row holds at least one message and at least 0.1 minutes per message;
- `is_active` is 1 or 0;
- emails are unique;
- ids stay below the counter.

Minutes are exact reals. The date of the request (`today`) and the first
day of the month are parameters, not read from a clock. The upstream API
call is a parameter of type `Upstream`, with three cases:
- `Reply(inputTokens?, outputTokens?)`;
- `Rejected(status)`;
- `Threw`, which covers a rejected fetch and a body that is not JSON. The
  handler's catch turns it into a 500.

The caller's `{id, role}` is taken as the token verification gives it.

The HTTP status codes quoted below come from two functions in `server.dfy`:
- `ChatReply.Status` gives 400, 500, 429, the forwarded upstream status, or 200;
- `AdminError.Status` gives 403 for the role gates, 400 for bad or
  conflicting data, and 404 for an unknown user.

## Model

| member | source | states |
|---|---|---|
| `Quota.TokensUsed` | server.js:287 | The token total is 0 when either usage count is missing, because the sum is NaN and `|| 0` replaces it. Otherwise it is at least each of the two counts; that it is their sum is stated by `Quota.Charge`. |
| `Quota.EstimateMinutes` | server.js:288-289 | The charge is at least 0.1 and at least tokens / (1.3 · 200). It is exactly 0.1 iff the token total is at most 26, and it is always one of the two: 0.1 or tokens / (1.3 · 200). |
| `Quota.EstimateMonotone` | server.js:287-289 | More tokens never cost fewer minutes. |
| `Quota.Charge` | server.js:287-289 | Every answered request costs at least 0.1 minutes. If either usage count is missing, the sum is NaN and counts as 0, so the charge is exactly 0.1. Otherwise the charge is the estimate for the sum of the two counts. |
| `Quota.UsedOn` | server.js:229-232 | `COALESCE(us.minutes_used, 0)` of the LEFT JOIN: 0 when the user has no row for the day. With a row, it is the stored row's minutes. |
| `Quota.Accrue` | server.js:292-299 | The upsert adds `m` minutes and one message to the row of (user, day). A missing row counts as zero, so the insert branch gives `(m, 1)`. The table gains at most that key, and every other row is unchanged. |
| `Quota.AccrueKeepsRowsValid` | server.js:292-299 | Accruing a charge of at least 0.1 keeps every row at ≥ 1 message and ≥ 0.1 minutes per message. No row's minutes or count decrease. |
| `Quota.AccrueTimesMinutes` | server.js:292-299 | `n` consecutive upserts of `m` minutes under one key add exactly `n·m` minutes to that row, whether or not the row existed. |
| `Quota.AccrueLinear` | server.js:292-299 | `n` accruals of `m` under one key add exactly `n·m` minutes and `n` messages, so no update is lost. All other rows are unchanged. |
| `Quota.Report` | server.js:304-309 | `total_used_today` is the usage read before the call plus `m`, and `remaining` is the limit minus that total. After an admitted request (`used < limit`), `remaining > -m`, so the limit is overshot by less than one charge. `remaining >= 0` iff `used + m <= limit`. |
| `Quota.MonthRows` | server.js:327-335 | The summary's rows are exactly the caller's rows dated on or after the first day of the month, with their stored values. |
| `Quota.TodayUsage` | server.js:338 | Today's row is looked up among the month's rows, and is zeros without a row. Once the month has begun, it equals the usage the chat admission reads for the same day. |
| `Quota.RemainingToday` | server.js:348 | `remaining_today` is never negative and never below `limit - used`. It is either 0 or `limit - used`, and it is 0 exactly when a chat request would be refused. |
| `Quota.SumMinutesPick` | server.js:339 | The monthly `reduce` sum does not depend on the order in which rows are added. |
| `Quota.SumMinutes` | server.js:339 | The monthly `reduce` sum starts at 0, so no rows sum to 0. Rows whose minutes are all non-negative give a non-negative sum. |
| `Quota.MonthlyCoversToday` | server.js:338-339 | For a valid table, the monthly total is at least today's reported minutes. |
| `Quota.AccrueGrowsMonth` | server.js:292-299 | Once the month has begun, a charge of `m` today raises the caller's monthly total by exactly `m`. |
| `Quota.AccrueIsolated` | server.js:292-299 | Charging one user leaves every other user's monthly rows unchanged. |
| `Quota.WithoutUser` | server.js:513 | After `DELETE FROM usage WHERE user_id = ?`, exactly the rows of other users remain, with their values. |
| `Quota.WithoutUserErasesHistory` | server.js:508-513 | After the cascade the deleted user has no rows in any month, and every other user's history is unchanged. |
| `Admin.IsAdmin` | server.js:88-93 | No contract. The `requireAdmin` gate admits the roles `admin` and `super_admin`. |
| `Admin.IsSuperAdmin` | server.js:96-101 | No contract. The `requireSuperAdmin` gate admits exactly `super_admin`. |
| `Admin.GatesNested` | server.js:88-101 | Whoever passes `requireSuperAdmin` also passes `requireAdmin`. The roles that pass the admin gate but not the super-admin gate are exactly `admin`. |
| `Admin.RoleOrDefault` | server.js:426 | A created user's role is the requested one when it is truthy. Otherwise (missing or empty) it is `student`. It is never empty. |
| `Admin.MinutesOrDefault` | server.js:427 | The allowance of a created user is never 0. It is 60 exactly when none was given, 0 was given, or 60 was given. Any other value is kept. |
| `Admin.MayCreateRole` | server.js:421 | Passing the guard and being created with an admin role requires a super-admin caller. |
| `Admin.ActiveFlag` | server.js:475 | `is_active ? 1 : 0` is always 1 or 0, and it is 1 exactly for a truthy value. |
| `Admin.Patched` | server.js:465-480 | Field by field: a supplied `name` or `daily_minutes` is stored as given. A supplied `is_active` is stored as its 1/0 flag. A supplied role is stored when the caller is super admin. Every field not written keeps its value, and the email never changes. |
| `Admin.NothingToUpdate` | server.js:482-484 | The 400 case: no column may be written. Patching with such a request would leave every row as it is. |
| `Admin.AssignAll` | server.js:488-490 | Applying the `SET` list never changes the email. A list without an `is_active` assignment leaves `is_active` as it was. |
| `Admin.CollectAssignments` | server.js:462-484 | The `SET` list built by the pushes is empty exactly when nothing may be updated (the 400 case). Applied to any row, it gives the row patched with the request. |
| `Server.Ledger.constructor` | server.js:64-66 | A fresh database holds the super admin with 999999 daily minutes and no usage. |
| `Server.Ledger.Chat` | server.js:214-319 | A request without a `messages` array gets 400, and one from an unknown user gets 500. Otherwise it gets 429 with `remaining: 0` exactly when `used_today >= daily_minutes`. An admitted request forwards the upstream status on a rejection and gets 500 when the upstream call throws. On a reply, today's row is upserted with the charge and the totals are reported from the values read before the call. The usage table changes iff the request was answered, and the reported total equals the stored one. |
| `Server.Ledger.UsageSummary` | server.js:322-353 | Gives today's row, the monthly sum (the loop is proved against `SumMinutes`), the limit and `remaining_today`. An unknown caller gets the error outcome. |
| `Server.Ledger.CreateUser` | server.js:412-450 | In order: 403 for a non-admin, 400 for missing email/password/name, 403 for an admin role requested by a non-super-admin, 400 for a taken email. Otherwise the user is inserted under the next id, with the defaulted role and minutes and `is_active` 1, and nothing else changes. |
| `Server.Ledger.UpdateUser` | server.js:453-497 | In order: 403 for a non-admin, 403 for a truthy role from a non-super-admin, 400 for an empty update, 404 for an unknown id. Otherwise exactly that user becomes `Patched`. |
| `Server.Ledger.DeleteUser` | server.js:500-516 | 403 unless the caller is super admin, then 400 for deleting oneself, then 404 for an unknown id. A successful delete removes the user and all of that user's usage rows, and a refused one changes nothing. |

## Left out

- Express routing, CORS, static files and `app.listen`: HTTP plumbing.
- SQLite connection, schema creation and storage errors: the tables are
  maps, and the 500 answers for a failed query are not modelled.
- Token signing and verification, password hashing and comparison, and the
  register, login and `/api/auth/me` endpoints: these are credential
  handling done by foreign libraries. The caller's `{id, role}` is a
  parameter, and the password of a created user is only checked for
  presence.
- The fetch to the upstream API and the system-personality read that feeds
  it: the upstream outcome is a parameter.
- Clock-derived dates: `today` and the first day of the month are
  parameters. The source builds the first day from local midnight and
  `today` from UTC. The resulting host-time drift at month boundaries is not
  modelled.
- IEEE-754 rounding of the minute arithmetic: minutes are exact reals.
- JSON `null` or non-numeric values for token counts, `daily_minutes` or
  `role`: a field is either absent or a value of the modelled type.
- The check-then-act race between admission and accrual, and the atomicity
  of `ON CONFLICT ... DO UPDATE`: each request is one atomic method call.
  `Quota.AccrueLinear` states the no-lost-update sum for consecutive
  accruals.
- The settings endpoints, the admin user list and user details, and the
  admin statistics (server.js:359-409, 519-612): reads and key/value CRUD
  with no ledger rule beyond those modelled.
- The order of the summary's `history` (`ORDER BY date DESC`): it is
  returned as a map from date to row.
- Logging.
- `Server.Ledger.UsageSummary`: for a user that no longer exists, the source
  throws inside a database callback, which is not caught. The model returns
  `SummaryFailed` instead of ending the process.
