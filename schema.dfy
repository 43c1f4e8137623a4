/** The shared schema: the closed role set, the shape of a row of the users
    table, and the two request-body validators the server applies. */
module Schema {

  datatype Option<+T> = None | Some(value: T)

  /** The outcome of a validator's safeParse: the parsed data, or a rejection. */
  datatype ParseResult<+T> = Parsed(data: T) | Invalid

  /** The closed role set. `Regular` is the role whose name is "user". */
  datatype UserRole = Guest | Regular | Admin

  /** The role names in the order the schema lists them. */
  const UserRoleNames: seq<string> := ["guest", "user", "admin"]

  /** The width of the role column, varchar(20). */
  const RoleColumnLength: nat := 20

  /** The name a role is stored and sent under. */
  function RoleName(r: UserRole): (s: string)
    ensures s in UserRoleNames
    ensures |s| <= RoleColumnLength
  {
    match r
    case Guest => "guest"
    case Regular => "user"
    case Admin => "admin"
  }

  /** The role a stored or received name denotes, if it is one of the enum's names. */
  function ParseRole(s: string): (r: Option<UserRole>)
    ensures r.Some? ==> RoleName(r.value) == s
    ensures r.None? ==> s !in UserRoleNames
  {
    if s == "guest" then Some(Guest)
    else if s == "user" then Some(Regular)
    else if s == "admin" then Some(Admin)
    else None
  }

  /** Naming a role and reading the name back gives the role again. */
  lemma RoleNameRoundTrip(r: UserRole)
    ensures ParseRole(RoleName(r)) == Some(r)
  {
  }

  /** The schema's role list is exactly the three roles, with no name twice. */
  lemma UserRoleNamesAreTheEnum()
    ensures |UserRoleNames| == 3
    ensures forall i, j :: 0 <= i < j < |UserRoleNames| ==> UserRoleNames[i] != UserRoleNames[j]
    ensures forall s :: s in UserRoleNames <==> ParseRole(s).Some?
    ensures forall s :: s in UserRoleNames ==> |s| <= RoleColumnLength
  {
  }

  // ---------------------------------------------------------------------------
  // Request bodies

  /** A JSON value as far as the validators look at it: a string, or anything
      else (null, a number, a boolean, an array, an object). */
  datatype Json = JString(s: string) | JOther

  /** A parsed request body: a JSON object with its fields, or any other JSON value. */
  datatype Body = Object(fields: map<string, Json>) | NotObject

  const NameMinLength: nat := 1
  const NameMaxLength: nat := 50

  /** `z.string().min(1).max(50)` */
  predicate ValidName(s: string)
  {
    NameMinLength <= |s| <= NameMaxLength
  }

  /** What the profile validator demands of one optional name field: absent,
      or a string of valid length. */
  predicate NameFieldOk(fields: map<string, Json>, key: string)
  {
    key !in fields || (fields[key].JString? && ValidName(fields[key].s))
  }

  /** The data the profile validator keeps; unknown keys are stripped. */
  datatype UpdateProfile = UpdateProfile(firstName: Option<string>, lastName: Option<string>)

  function NameField(fields: map<string, Json>, key: string): ParseResult<Option<string>>
  {
    if key !in fields then Parsed(None)
    else match fields[key]
      case JString(s) => if ValidName(s) then Parsed(Some(s)) else Invalid
      case JOther => Invalid
  }

  /** `updateProfileSchema.safeParse`: accepts an object whose firstName and
      lastName are each absent or a string of 1 to 50 characters. */
  function ParseProfile(body: Body): (r: ParseResult<UpdateProfile>)
    ensures r.Parsed? <==> body.Object? && NameFieldOk(body.fields, "firstName") && NameFieldOk(body.fields, "lastName")
    ensures r.Parsed? ==> (r.data.firstName.Some? <==> "firstName" in body.fields)
    ensures r.Parsed? ==> (r.data.lastName.Some? <==> "lastName" in body.fields)
    ensures r.Parsed? && r.data.firstName.Some? ==>
      body.fields["firstName"] == JString(r.data.firstName.value) && ValidName(r.data.firstName.value)
    ensures r.Parsed? && r.data.lastName.Some? ==>
      body.fields["lastName"] == JString(r.data.lastName.value) && ValidName(r.data.lastName.value)
  {
    match body
    case NotObject => Invalid
    case Object(fields) =>
      match (NameField(fields, "firstName"), NameField(fields, "lastName"))
      case (Parsed(first), Parsed(last)) => Parsed(UpdateProfile(first, last))
      case _ => Invalid
  }

  /** The empty object is a valid profile update that changes nothing. */
  lemma EmptyProfileBodyIsValid()
    ensures ParseProfile(Object(map[])) == Parsed(UpdateProfile(None, None))
  {
  }

  /** `updateUserRoleSchema.safeParse`: accepts an object whose role is one of
      the enum's names. */
  function ParseRoleBody(body: Body): (r: ParseResult<UserRole>)
    ensures r.Parsed? <==>
      body.Object? && "role" in body.fields && body.fields["role"].JString? && body.fields["role"].s in UserRoleNames
    ensures r.Parsed? ==> body.fields["role"] == JString(RoleName(r.data))
  {
    match body
    case NotObject => Invalid
    case Object(fields) =>
      if "role" in fields && fields["role"].JString? then
        match ParseRole(fields["role"].s)
        case Some(role) => Parsed(role)
        case None => Invalid
      else Invalid
  }

  // ---------------------------------------------------------------------------
  // The users table

  /** A point in time, left abstract. */
  type Timestamp = nat

  /** A row of the users table. `role` is the varchar(20) column as stored. */
  datatype User = User(
    id: string,
    email: Option<string>,
    firstName: Option<string>,
    lastName: Option<string>,
    profileImageUrl: Option<string>,
    role: string,
    createdAt: Option<Timestamp>,
    updatedAt: Option<Timestamp>)

  /** The invariant of the users table: every row is stored under its own id
      (the primary key), every role is one of the enum's names (so it is never
      null and fits the column), and no two rows share an email. */
  predicate ValidStore(users: map<string, User>)
    ensures ValidStore(users) ==>
      forall id :: id in users ==> ParseRole(users[id].role).Some? && |users[id].role| <= RoleColumnLength
  {
    && (forall id :: id in users ==> users[id].id == id && users[id].role in UserRoleNames)
    && (forall a, b :: a in users && b in users && a != b && users[a].email.Some? ==> users[a].email != users[b].email)
  }

  /** A freshly inserted row: the role column takes its default, "user". */
  function NewRow(id: string, email: Option<string>, firstName: Option<string>, lastName: Option<string>,
                  profileImageUrl: Option<string>, now: Timestamp): (row: User)
    ensures ParseRole(row.role) == Some(Regular)
    ensures row.id == id && row.email == email && row.firstName == firstName && row.lastName == lastName
    ensures row.createdAt == row.updatedAt == Some(now)
  {
    User(id, email, firstName, lastName, profileImageUrl, RoleName(Regular), Some(now), Some(now))
  }

  /** Inserting a new row under a fresh id and an unused email keeps the table valid. */
  lemma NewRowKeepsStoreValid(users: map<string, User>, id: string, email: Option<string>,
                              firstName: Option<string>, lastName: Option<string>,
                              profileImageUrl: Option<string>, now: Timestamp)
    requires ValidStore(users)
    requires id !in users
    requires email.Some? ==> forall k :: k in users ==> users[k].email != email
    ensures NewRow(id, email, firstName, lastName, profileImageUrl, now).role == "user"
    ensures ValidStore(users[id := NewRow(id, email, firstName, lastName, profileImageUrl, now)])
  {
    var row := NewRow(id, email, firstName, lastName, profileImageUrl, now);
    var users' := users[id := row];
    forall a, b | a in users' && b in users' && a != b && users'[a].email.Some?
      ensures users'[a].email != users'[b].email
    {
      if a == id {
        assert users'[b] == users[b];
      } else if b == id {
        assert users'[a] == users[a];
      }
    }
  }
}
