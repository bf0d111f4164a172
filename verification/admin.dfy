/**
 * The administrators' rules that act on the `users` table: the role gates
 * in front of the admin endpoints, the defaults of a created user, and the
 * list of column assignments a partial update is made of.
 */
module Admin {
  import opened Tables

  /** `requireAdmin`: the caller's role is `admin` or `super_admin`. */
  predicate IsAdmin(role: string) {
    role == AdminRole || role == SuperAdmin
  }

  /** `requireSuperAdmin`: the caller's role is exactly `super_admin`. */
  predicate IsSuperAdmin(role: string) {
    role == SuperAdmin
  }

  /**
   * The super-admin gate is the narrower one: a role that passes it passes
   * the admin gate, and the roles that pass only the admin gate are exactly
   * `admin`.
   */
  lemma GatesNested(role: string)
    ensures IsSuperAdmin(role) ==> IsAdmin(role)
    ensures IsAdmin(role) && !IsSuperAdmin(role) <==> role == AdminRole
  {
  }

  /** JavaScript truthiness of an optional string: present and not empty. */
  predicate Truthy(s: Option<string>) {
    s.Some? && s.value != ""
  }

  // ---------------------------------------------------------------------
  // Creating a user
  // ---------------------------------------------------------------------

  /** `role || 'student'`: the role a created user is stored with. */
  function RoleOrDefault(role: Option<string>): (r: string)
    ensures r != ""
    ensures Truthy(role) ==> r == role.value
    ensures !Truthy(role) ==> r == Student
  {
    if Truthy(role) then role.value else Student
  }

  /**
   * `daily_minutes || 60`: a missing allowance and an allowance of 0 both
   * become 60; any other number is kept.
   */
  function MinutesOrDefault(dailyMinutes: Option<real>): (r: real)
    ensures r != 0.0
    ensures r == 60.0 <==> dailyMinutes.None? || dailyMinutes.value == 0.0 || dailyMinutes.value == 60.0
    ensures dailyMinutes.Some? && dailyMinutes.value != 0.0 ==> r == dailyMinutes.value
  {
    if dailyMinutes.Some? && dailyMinutes.value != 0.0 then dailyMinutes.value else 60.0
  }

  /**
   * The guard of the create endpoint: asking for an `admin` or
   * `super_admin` role needs a super-admin caller. Whatever passes it, a
   * created user holds an admin role only when a super admin created it.
   */
  predicate MayCreateRole(role: Option<string>, callerRole: string)
    ensures MayCreateRole(role, callerRole) && IsAdmin(RoleOrDefault(role)) ==> IsSuperAdmin(callerRole)
  {
    !(Truthy(role) && IsAdmin(role.value) && !IsSuperAdmin(callerRole))
  }

  // ---------------------------------------------------------------------
  // Updating a user
  // ---------------------------------------------------------------------

  /**
   * The fields of an update request; `None` is a field left `undefined`.
   * `isActive` is the truthiness of the value supplied for `is_active`.
   */
  datatype Patch = Patch(name: Option<string>, dailyMinutes: Option<real>, isActive: Option<bool>, role: Option<string>)

  /** One `column = ?` of the `UPDATE users SET ...` statement, with its value. */
  datatype Assignment =
    | SetName(name: string)
    | SetDailyMinutes(minutes: real)
    | SetActive(flag: int)
    | SetRole(role: string)

  /** `is_active ? 1 : 0`. */
  function ActiveFlag(active: bool): (flag: int)
    ensures flag == 0 || flag == 1
    ensures flag == 1 <==> active
  {
    if active then 1 else 0
  }

  /** The effect of one assignment on a row. */
  function Assign(u: User, a: Assignment): User {
    match a
    case SetName(n) => u.(name := n)
    case SetDailyMinutes(x) => u.(dailyMinutes := x)
    case SetActive(f) => u.(isActive := f)
    case SetRole(r) => u.(role := r)
  }

  /** The effect of the whole `SET` list on a row, assignment by assignment. */
  function AssignAll(u: User, updates: seq<Assignment>): (r: User)
    ensures r.email == u.email
    ensures (forall i :: 0 <= i < |updates| ==> !updates[i].SetActive?) ==> r.isActive == u.isActive
    decreases |updates|
  {
    if updates == [] then u
    else Assign(AssignAll(u, updates[..|updates| - 1]), updates[|updates| - 1])
  }

  /**
   * What an update promises, field by field: every supplied field takes the
   * supplied value (`is_active` as 1 or 0, the role only for a super-admin
   * caller) and every other field keeps its value.
   */
  function Patched(u: User, p: Patch, callerRole: string): (r: User)
    ensures r.email == u.email
    ensures p.name.Some? ==> r.name == p.name.value
    ensures p.name.None? ==> r.name == u.name
    ensures p.dailyMinutes.Some? ==> r.dailyMinutes == p.dailyMinutes.value
    ensures p.dailyMinutes.None? ==> r.dailyMinutes == u.dailyMinutes
    ensures p.isActive.Some? ==> r.isActive == ActiveFlag(p.isActive.value)
    ensures p.isActive.None? ==> r.isActive == u.isActive
    ensures p.role.Some? && IsSuperAdmin(callerRole) ==> r.role == p.role.value
    ensures !(p.role.Some? && IsSuperAdmin(callerRole)) ==> r.role == u.role
  {
    u.(name := p.name.GetOr(u.name),
       dailyMinutes := p.dailyMinutes.GetOr(u.dailyMinutes),
       isActive := if p.isActive.Some? then ActiveFlag(p.isActive.value) else u.isActive,
       role := if p.role.Some? && IsSuperAdmin(callerRole) then p.role.value else u.role)
  }

  /** The request names no column the caller may write: the endpoint answers 400. */
  predicate NothingToUpdate(p: Patch, callerRole: string)
    ensures NothingToUpdate(p, callerRole) ==> forall u :: Patched(u, p, callerRole) == u
  {
    p.name.None? && p.dailyMinutes.None? && p.isActive.None? &&
    !(p.role.Some? && IsSuperAdmin(callerRole))
  }

  /** One optional `push`: an assignment added at the end is applied last. */
  lemma AssignAllPush(u: User, before: seq<Assignment>, after: seq<Assignment>, a: Option<Assignment>)
    requires after == if a.Some? then before + [a.value] else before
    ensures AssignAll(u, after) == if a.Some? then Assign(AssignAll(u, before), a.value) else AssignAll(u, before)
  {
  }

  /**
   * The `updates`/`values` lists built one `push` at a time. The list is
   * empty exactly when there is nothing to update, and applying it to any
   * row gives the row patched with the request.
   */
  method CollectAssignments(p: Patch, callerRole: string) returns (updates: seq<Assignment>)
    ensures |updates| <= 4
    ensures updates == [] <==> NothingToUpdate(p, callerRole)
    ensures forall u :: AssignAll(u, updates) == Patched(u, p, callerRole)
  {
    ghost var s0 := [];
    updates := [];
    if p.name.Some? {
      updates := updates + [SetName(p.name.value)];
    }
    ghost var s1 := updates;
    if p.dailyMinutes.Some? {
      updates := updates + [SetDailyMinutes(p.dailyMinutes.value)];
    }
    ghost var s2 := updates;
    if p.isActive.Some? {
      updates := updates + [SetActive(ActiveFlag(p.isActive.value))];
    }
    ghost var s3 := updates;
    if p.role.Some? && IsSuperAdmin(callerRole) {
      updates := updates + [SetRole(p.role.value)];
    }
    forall u ensures AssignAll(u, updates) == Patched(u, p, callerRole) {
      AssignAllPush(u, s0, s1, if p.name.Some? then Some(SetName(p.name.value)) else None);
      AssignAllPush(u, s1, s2, if p.dailyMinutes.Some? then Some(SetDailyMinutes(p.dailyMinutes.value)) else None);
      AssignAllPush(u, s2, s3, if p.isActive.Some? then Some(SetActive(ActiveFlag(p.isActive.value))) else None);
      AssignAllPush(u, s3, updates, if p.role.Some? && IsSuperAdmin(callerRole) then Some(SetRole(p.role.value)) else None);
    }
  }
}
