/** The server's role-based access control: the role gate that guards the
    admin routes, the profile-update route, and the role-change route with
    its policy and audit line. The user store and the audit log are the state
    of class `Backend`; the pure functions below say what one request does to
    that state, and the handlers are proved against them. */
module Routes {
  import opened Schema

  /** An error response: HTTP status and message. */
  datatype Failure = Failure(status: nat, message: string)

  datatype Response<+T> = Ok(body: T) | Err(failure: Failure)

  const UserNotFound := Failure(404, "User not found")
  const InsufficientPermissions := Failure(403, "Forbidden: insufficient permissions")
  const InvalidData := Failure(400, "Invalid data")
  const OwnRoleChange := Failure(400, "Cannot change your own role")
  const AdminTargetProtected := Failure(403, "Cannot change another admin's role")

  /** What the gate does with a request: pass it on with the caller's record
      attached as `dbUser`, or answer it with an error. */
  datatype GateOutcome = Continue(dbUser: User) | Deny(failure: Failure)

  /** One audit line: who changed whose role, from what, to what. */
  datatype AuditEntry = AuditEntry(actor: string, target: string, oldRole: string, newRole: string)

  /** Everything a request can change: the users table and the audit log. */
  datatype State = State(users: map<string, User>, auditLog: seq<AuditEntry>)

  /** `allowedRoles.includes(role)`: the stored role string is the name of one of the allowed roles. */
  predicate RoleAllowed(role: string, allowedRoles: seq<UserRole>)
  {
    exists i :: 0 <= i < |allowedRoles| && RoleName(allowedRoles[i]) == role
  }

  /** The ids of the rows whose role is admin. */
  function Admins(users: map<string, User>): set<string>
  {
    set id | id in users && users[id].role == "admin"
  }

  // ---------------------------------------------------------------------------
  // The role gate

  /** `requireRole(...allowedRoles)`: 404 when the caller has no record, 403
      when the record's role is not allowed, otherwise continue with the record. */
  function Gate(users: map<string, User>, callerId: string, allowedRoles: seq<UserRole>): (g: GateOutcome)
    ensures g == Deny(UserNotFound) <==> callerId !in users
    ensures g == Deny(InsufficientPermissions) <==>
      callerId in users && !RoleAllowed(users[callerId].role, allowedRoles)
    ensures g.Continue? <==> callerId in users && RoleAllowed(users[callerId].role, allowedRoles)
    ensures g.Continue? ==> g.dbUser == users[callerId]
  {
    if callerId !in users then Deny(UserNotFound)
    else if !RoleAllowed(users[callerId].role, allowedRoles) then Deny(InsufficientPermissions)
    else Continue(users[callerId])
  }

  /** The gate of the admin routes lets through exactly the callers whose
      stored role is "admin". */
  lemma AdminGateAdmitsExactlyAdmins(users: map<string, User>, callerId: string)
    ensures Gate(users, callerId, [Admin]).Continue? <==> callerId in Admins(users)
  {
    if callerId in users && users[callerId].role == "admin" {
      assert RoleName([Admin][0]) == "admin";
    }
  }

  // ---------------------------------------------------------------------------
  // PATCH /api/admin/users/:userId/role

  /** The role-change handler once the gate has let the caller through: the
      guards in their order (own role, body, missing target, admin target),
      then the audit line, then the write. */
  function RoleChangeHandler(s: State, actorId: string, targetId: string, body: Body): (r: (Response<User>, State))
    ensures targetId == actorId ==> r == (Err(OwnRoleChange), s)
    ensures r.0.Err? ==> r.1 == s
    ensures r.0.Ok? <==>
      targetId != actorId && ParseRoleBody(body).Parsed? && targetId in s.users && s.users[targetId].role != "admin"
  {
    if targetId == actorId then (Err(OwnRoleChange), s)
    else match ParseRoleBody(body)
      case Invalid => (Err(InvalidData), s)
      case Parsed(role) =>
        if targetId !in s.users then (Err(UserNotFound), s)
        else
          var target := s.users[targetId];
          if target.role == "admin" then (Err(AdminTargetProtected), s)
          else
            var entry := AuditEntry(actorId, targetId, target.role, RoleName(role));
            var updated := target.(role := RoleName(role));
            (Ok(updated), State(s.users[targetId := updated], s.auditLog + [entry]))
  }

  /** The whole role-change route: the admin gate, then the handler. */
  function PatchRoleStep(s: State, actorId: string, targetId: string, body: Body): (r: (Response<User>, State))
    ensures actorId !in s.users ==> r == (Err(UserNotFound), s)
    ensures actorId in s.users && actorId !in Admins(s.users) ==> r == (Err(InsufficientPermissions), s)
    ensures r.0.Err? ==> r.1 == s
    ensures r.0.Ok? <==>
      && actorId in Admins(s.users) && targetId != actorId && ParseRoleBody(body).Parsed?
      && targetId in s.users && targetId !in Admins(s.users)
  {
    AdminGateAdmitsExactlyAdmins(s.users, actorId);
    match Gate(s.users, actorId, [Admin])
    case Deny(f) => (Err(f), s)
    case Continue(_) => RoleChangeHandler(s, actorId, targetId, body)
  }

  /** A request that targets the caller's own record is refused with 400
      whatever it asks for, unless the gate has already refused it. */
  lemma SelfTargetAlwaysRefused(s: State, actorId: string, body: Body)
    ensures var (resp, s') := PatchRoleStep(s, actorId, actorId, body);
      s' == s && resp.Err? &&
      (resp.failure == OwnRoleChange <==> actorId in Admins(s.users))
  {
    AdminGateAdmitsExactlyAdmins(s.users, actorId);
  }

  /** The guards in their order: each refusal names the first guard that fails. */
  lemma GuardOrder(s: State, actorId: string, targetId: string, body: Body)
    requires actorId in Admins(s.users) && targetId != actorId
    ensures ParseRoleBody(body).Invalid? ==> PatchRoleStep(s, actorId, targetId, body).0 == Err(InvalidData)
    ensures ParseRoleBody(body).Parsed? && targetId !in s.users ==>
      PatchRoleStep(s, actorId, targetId, body).0 == Err(UserNotFound)
    ensures ParseRoleBody(body).Parsed? && targetId in Admins(s.users) ==>
      PatchRoleStep(s, actorId, targetId, body).0 == Err(AdminTargetProtected)
  {
    AdminGateAdmitsExactlyAdmins(s.users, actorId);
  }

  /** A refused request leaves the users table and the audit log as they were. */
  lemma RefusalChangesNothing(s: State, actorId: string, targetId: string, body: Body)
    ensures PatchRoleStep(s, actorId, targetId, body).0.Err? ==> PatchRoleStep(s, actorId, targetId, body).1 == s
  {
  }

  /** An accepted request comes from an admin about an existing non-admin
      other than the caller; afterwards the target's role is the requested
      one, the target's other fields and every other row are unchanged, and
      exactly one audit line (actor, target, old role, new role) is appended. */
  lemma AcceptedChangeTouchesOnlyTargetRole(s: State, actorId: string, targetId: string, body: Body)
    requires PatchRoleStep(s, actorId, targetId, body).0.Ok?
    ensures actorId in Admins(s.users) && targetId != actorId
    ensures targetId in s.users && targetId !in Admins(s.users)
    ensures ParseRoleBody(body).Parsed?
    ensures var (resp, s') := PatchRoleStep(s, actorId, targetId, body);
      var role := RoleName(ParseRoleBody(body).data);
      && resp.body == s.users[targetId].(role := role)
      && s'.users.Keys == s.users.Keys
      && s'.users[targetId].role == role
      && s'.users[targetId] == resp.body
      && s'.users == s.users[targetId := s.users[targetId].(role := role)]
      && (forall id :: id in s.users && id != targetId ==> s'.users[id] == s.users[id])
      && s'.auditLog == s.auditLog + [AuditEntry(actorId, targetId, s.users[targetId].role, role)]
  {
    AdminGateAdmitsExactlyAdmins(s.users, actorId);
  }

  /** There is no demotion path: no request changes a row whose role is
      admin, so the set of admins can only grow. */
  lemma NoDemotion(s: State, actorId: string, targetId: string, body: Body)
    ensures var s' := PatchRoleStep(s, actorId, targetId, body).1;
      (forall id :: id in Admins(s.users) ==> id in s'.users && s'.users[id] == s.users[id])
      && Admins(s.users) <= Admins(s'.users)
  {
  }

  /** Asking for the role the target already has succeeds and leaves the
      table as it was; the audit line is still written. */
  lemma SameRoleIsAcceptedNoOp(s: State, actorId: string, targetId: string, role: UserRole)
    requires actorId in Admins(s.users) && targetId != actorId
    requires targetId in s.users && s.users[targetId].role == RoleName(role) && role != Admin
    ensures var (resp, s') := PatchRoleStep(s, actorId, targetId, Object(map["role" := JString(RoleName(role))]));
      resp == Ok(s.users[targetId]) && s'.users == s.users && |s'.auditLog| == |s.auditLog| + 1
  {
    AdminGateAdmitsExactlyAdmins(s.users, actorId);
    var body := Object(map["role" := JString(RoleName(role))]);
    RoleNameRoundTrip(role);
    assert ParseRoleBody(body) == Parsed(role);
    assert s.users[targetId].(role := RoleName(role)) == s.users[targetId];
  }

  /** Every role the handler writes is one of the enum's names and every
      audit line records a change away from a non-admin role, so a valid
      table stays valid. */
  lemma PatchRoleKeepsStoreValid(s: State, actorId: string, targetId: string, body: Body)
    requires ValidStore(s.users)
    ensures var s' := PatchRoleStep(s, actorId, targetId, body).1;
      && ValidStore(s'.users)
      && s.auditLog <= s'.auditLog
      && (forall i :: |s.auditLog| <= i < |s'.auditLog| ==>
            s'.auditLog[i].newRole in UserRoleNames && s'.auditLog[i].oldRole != "admin")
  {
    var (resp, s') := PatchRoleStep(s, actorId, targetId, body);
    if resp.Ok? {
      AcceptedChangeTouchesOnlyTargetRole(s, actorId, targetId, body);
      forall a, b | a in s'.users && b in s'.users && a != b && s'.users[a].email.Some?
        ensures s'.users[a].email != s'.users[b].email
      {
        assert s'.users[a].email == s.users[a].email;
        assert s'.users[b].email == s.users[b].email;
      }
    }
  }

  // ---------------------------------------------------------------------------
  // PATCH /api/profile

  /** What `updateUserProfile` writes: each name the data carries replaces the
      stored one; every other field stays. */
  function ApplyProfile(u: User, data: UpdateProfile): User
  {
    u.(firstName := if data.firstName.Some? then data.firstName else u.firstName,
       lastName := if data.lastName.Some? then data.lastName else u.lastName)
  }

  /** The profile route: 400 for a body the validator refuses, 404 when the
      caller has no record, otherwise the updated record. */
  function PatchProfileStep(s: State, callerId: string, body: Body): (r: (Response<User>, State))
    ensures ParseProfile(body).Invalid? ==> r == (Err(InvalidData), s)
    ensures ParseProfile(body).Parsed? && callerId !in s.users ==> r == (Err(UserNotFound), s)
    ensures r.0.Err? ==> r.1 == s
    ensures r.0.Ok? <==> ParseProfile(body).Parsed? && callerId in s.users
    ensures r.1.auditLog == s.auditLog
    ensures r.0.Ok? ==>
      && r.1.users == s.users[callerId := r.0.body]
      && r.0.body == s.users[callerId].(firstName := r.0.body.firstName, lastName := r.0.body.lastName)
    ensures r.0.Ok? && "firstName" in body.fields ==> r.0.body.firstName == Some(body.fields["firstName"].s)
    ensures r.0.Ok? && "firstName" !in body.fields ==> r.0.body.firstName == s.users[callerId].firstName
    ensures r.0.Ok? && "lastName" in body.fields ==> r.0.body.lastName == Some(body.fields["lastName"].s)
    ensures r.0.Ok? && "lastName" !in body.fields ==> r.0.body.lastName == s.users[callerId].lastName
  {
    match ParseProfile(body)
    case Invalid => (Err(InvalidData), s)
    case Parsed(data) =>
      if callerId !in s.users then (Err(UserNotFound), s)
      else
        var updated := ApplyProfile(s.users[callerId], data);
        (Ok(updated), s.(users := s.users[callerId := updated]))
  }

  /** Updating the profile with valid first and last names stores them: the
      record fetched next carries exactly those names. */
  lemma ProfileRoundTrip(s: State, callerId: string, firstName: string, lastName: string)
    requires callerId in s.users && ValidName(firstName) && ValidName(lastName)
    ensures var s' := PatchProfileStep(s, callerId, Object(map["firstName" := JString(firstName), "lastName" := JString(lastName)])).1;
      callerId in s'.users && s'.users[callerId].firstName == Some(firstName) && s'.users[callerId].lastName == Some(lastName)
  {
    var body := Object(map["firstName" := JString(firstName), "lastName" := JString(lastName)]);
    assert ParseProfile(body) == Parsed(UpdateProfile(Some(firstName), Some(lastName)));
  }

  /** A profile update never touches the role, the id or the email, so a valid table stays valid. */
  lemma PatchProfileKeepsStoreValid(s: State, callerId: string, body: Body)
    requires ValidStore(s.users)
    ensures var s' := PatchProfileStep(s, callerId, body).1;
      ValidStore(s'.users) && Admins(s'.users) == Admins(s.users)
  {
    var (resp, s') := PatchProfileStep(s, callerId, body);
    if resp.Ok? {
      forall id | id in s'.users
        ensures s'.users[id].id == s.users[id].id && s'.users[id].role == s.users[id].role
        ensures s'.users[id].email == s.users[id].email
      {
      }
    }
  }

  // ---------------------------------------------------------------------------
  // Sequences of requests

  /** The requests that reach the server's routes, each with the caller's id
      as the authentication layer resolved it. */
  datatype Request =
    | GetAuthUser(callerId: string)
    | PatchProfile(callerId: string, body: Body)
    | ListUsers(callerId: string)
    | PatchUserRole(callerId: string, targetId: string, body: Body)

  /** The state after one request. */
  function Step(s: State, req: Request): State
  {
    match req
    case GetAuthUser(_) => s
    case ListUsers(_) => s
    case PatchProfile(callerId, body) => PatchProfileStep(s, callerId, body).1
    case PatchUserRole(callerId, targetId, body) => PatchRoleStep(s, callerId, targetId, body).1
  }

  /** The state after a sequence of requests handled one at a time. */
  function Run(s: State, reqs: seq<Request>): State
    decreases |reqs|
  {
    if reqs == [] then s else Run(Step(s, reqs[0]), reqs[1..])
  }

  /** Over any sequence of requests the table stays valid, the set of admins
      only grows, the audit log is only appended to, and every appended line
      records a move from a non-admin role to one of the enum's names. */
  lemma {:induction false} RunKeepsInvariants(s: State, reqs: seq<Request>)
    requires ValidStore(s.users)
    ensures var s' := Run(s, reqs);
      && ValidStore(s'.users)
      && Admins(s.users) <= Admins(s'.users)
      && s.auditLog <= s'.auditLog
      && (forall i :: |s.auditLog| <= i < |s'.auditLog| ==>
            s'.auditLog[i].newRole in UserRoleNames && s'.auditLog[i].oldRole != "admin")
    decreases |reqs|
  {
    if reqs != [] {
      var s1 := Step(s, reqs[0]);
      match reqs[0] {
        case GetAuthUser(_) =>
        case ListUsers(_) =>
        case PatchProfile(callerId, body) => PatchProfileKeepsStoreValid(s, callerId, body);
        case PatchUserRole(callerId, targetId, body) =>
          PatchRoleKeepsStoreValid(s, callerId, targetId, body);
          NoDemotion(s, callerId, targetId, body);
      }
      RunKeepsInvariants(s1, reqs[1..]);
      var s' := Run(s1, reqs[1..]);
      assert s' == Run(s, reqs);
      forall i | |s.auditLog| <= i < |s'.auditLog|
        ensures s'.auditLog[i].newRole in UserRoleNames && s'.auditLog[i].oldRole != "admin"
      {
        if i < |s1.auditLog| {
          assert s'.auditLog[i] == s1.auditLog[i];
        }
      }
    }
  }

  /** An admin stays an admin through any sequence of requests: the role
      route never changes an admin's row, and the profile route, which may
      change an admin's names, never changes a role. */
  lemma {:induction false} AdminRowsSurviveRuns(s: State, reqs: seq<Request>, id: string)
    requires id in Admins(s.users)
    ensures id in Admins(Run(s, reqs).users)
    ensures Run(s, reqs).users[id].role == "admin"
    decreases |reqs|
  {
    if reqs != [] {
      var s1 := Step(s, reqs[0]);
      match reqs[0] {
        case GetAuthUser(_) =>
        case ListUsers(_) =>
        case PatchProfile(callerId, body) =>
        case PatchUserRole(callerId, targetId, body) => NoDemotion(s, callerId, targetId, body);
      }
      assert id in Admins(s1.users);
      AdminRowsSurviveRuns(s1, reqs[1..], id);
    }
  }

  // ---------------------------------------------------------------------------
  // The store and the handlers

  /** The server's view of the world: the users table, reached through the
      store's get and update operations, and the audit log. */
  class Backend {
    var users: map<string, User>
    var auditLog: seq<AuditEntry>

    ghost predicate Valid()
      reads this
    {
      ValidStore(users)
    }

    function Snapshot(): State
      reads this
    {
      State(users, auditLog)
    }

    constructor (initial: map<string, User>)
      requires ValidStore(initial)
      ensures Valid() && users == initial && auditLog == []
    {
      users := initial;
      auditLog := [];
    }

    /** `storage.getUser`: the record stored under `id`, if any. */
    method GetUser(id: string) returns (u: Option<User>)
      ensures u.Some? <==> id in users
      ensures u.Some? ==> u.value == users[id]
    {
      u := if id in users then Some(users[id]) else None;
    }

    /** `storage.updateUserRole`: replace the role of the record under `id`
        and return the new record, or return nothing when there is none. */
    method UpdateUserRole(id: string, role: string) returns (u: Option<User>)
      modifies this
      ensures u.Some? <==> id in old(users)
      ensures u.Some? ==> u.value == old(users)[id].(role := role) && users == old(users)[id := u.value]
      ensures u.None? ==> users == old(users)
      ensures auditLog == old(auditLog)
    {
      if id in users {
        var updated := users[id].(role := role);
        users := users[id := updated];
        u := Some(updated);
      } else {
        u := None;
      }
    }

    /** `storage.updateUserProfile`: write the names the data carries into
        the record under `id` and return it, or return nothing when there is none. */
    method UpdateUserProfile(id: string, data: UpdateProfile) returns (u: Option<User>)
      modifies this
      ensures u.Some? <==> id in old(users)
      ensures u.Some? ==> u.value == ApplyProfile(old(users)[id], data) && users == old(users)[id := u.value]
      ensures u.None? ==> users == old(users)
      ensures auditLog == old(auditLog)
    {
      if id in users {
        var updated := ApplyProfile(users[id], data);
        users := users[id := updated];
        u := Some(updated);
      } else {
        u := None;
      }
    }

    /** The gate middleware: reads the store and nothing else. */
    method RequireRole(callerId: string, allowedRoles: seq<UserRole>) returns (g: GateOutcome)
      ensures g == Gate(users, callerId, allowedRoles)
    {
      var user := GetUser(callerId);
      if user.None? {
        return Deny(UserNotFound);
      }
      if !RoleAllowed(user.value.role, allowedRoles) {
        return Deny(InsufficientPermissions);
      }
      g := Continue(user.value);
    }

    /** GET /api/auth/user: the caller's record, or an empty answer when there is none. */
    method HandleGetAuthUser(callerId: string) returns (u: Option<User>)
      ensures u.Some? <==> callerId in users
      ensures u.Some? ==> u.value == users[callerId]
    {
      u := GetUser(callerId);
    }

    /** GET /api/admin/users: the whole table, for admins only. */
    method HandleListUsers(callerId: string) returns (resp: Response<map<string, User>>)
      ensures resp.Ok? <==> callerId in Admins(users)
      ensures resp.Ok? ==> resp.body == users
      ensures resp.Err? ==> resp.failure == Gate(users, callerId, [Admin]).failure
    {
      AdminGateAdmitsExactlyAdmins(users, callerId);
      var gate := RequireRole(callerId, [Admin]);
      if gate.Deny? {
        return Err(gate.failure);
      }
      resp := Ok(users);
    }

    /** PATCH /api/profile. */
    method HandlePatchProfile(callerId: string, body: Body) returns (resp: Response<User>)
      requires Valid()
      modifies this
      ensures Valid()
      ensures (resp, Snapshot()) == PatchProfileStep(old(Snapshot()), callerId, body)
    {
      PatchProfileKeepsStoreValid(Snapshot(), callerId, body);
      var parsed := ParseProfile(body);
      if parsed.Invalid? {
        return Err(InvalidData);
      }
      var user := UpdateUserProfile(callerId, parsed.data);
      if user.None? {
        return Err(UserNotFound);
      }
      resp := Ok(user.value);
    }

    /** PATCH /api/admin/users/:userId/role: the admin gate, the guards, the
        audit line, then the write. */
    method HandlePatchUserRole(callerId: string, targetId: string, body: Body) returns (resp: Response<User>)
      requires Valid()
      modifies this
      ensures Valid()
      ensures (resp, Snapshot()) == PatchRoleStep(old(Snapshot()), callerId, targetId, body)
      ensures resp.Err? ==> users == old(users) && auditLog == old(auditLog)
      ensures Admins(old(users)) <= Admins(users)
    {
      PatchRoleKeepsStoreValid(Snapshot(), callerId, targetId, body);
      NoDemotion(Snapshot(), callerId, targetId, body);
      var gate := RequireRole(callerId, [Admin]);
      if gate.Deny? {
        return Err(gate.failure);
      }
      if targetId == callerId {
        return Err(OwnRoleChange);
      }
      var parsed := ParseRoleBody(body);
      if parsed.Invalid? {
        return Err(InvalidData);
      }
      var target := GetUser(targetId);
      if target.None? {
        return Err(UserNotFound);
      }
      if target.value.role == "admin" {
        return Err(AdminTargetProtected);
      }
      auditLog := auditLog + [AuditEntry(callerId, targetId, target.value.role, RoleName(parsed.data))];
      var user := UpdateUserRole(targetId, RoleName(parsed.data));
      if user.None? {
        return Err(UserNotFound);
      }
      resp := Ok(user.value);
    }
  }
}
