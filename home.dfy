/** The home page's helpers over the signed-in user's record, which may not
    have arrived yet. */
module HomePage {
  import opened Schema
  import opened Display

  /** `getInitials` */
  function GetInitials(user: Option<User>): (r: string)
    ensures user.None? ==> r == "U"
  {
    Initials(FirstNameOf(user), LastNameOf(user), EmailOf(user))
  }

  /** `getDisplayName`, whose last fallback is "User". */
  function GetDisplayName(user: Option<User>): (r: string)
    ensures user.None? ==> r == "User"
  {
    DisplayName(FirstNameOf(user), LastNameOf(user), EmailOf(user), "User")
  }

  /** The admin-dashboard link is shown exactly to a user whose role is "admin". */
  predicate ShowsAdminLink(user: Option<User>)
    ensures ShowsAdminLink(user) <==> user.Some? && ParseRole(user.value.role) == Some(Admin)
  {
    user.Some? && user.value.role == "admin"
  }

  /** The text of the role badge: `user?.role || "user"`. */
  function RoleBadgeText(user: Option<User>): (text: string)
    ensures text != []
    ensures user.Some? && user.value.role != [] ==> text == user.value.role
    ensures !(user.Some? && user.value.role != []) ==> text == "user"
  {
    if user.Some? && user.value.role != [] then user.value.role else RoleName(Regular)
  }

  /** The role badge is "default" for an admin and "secondary" for everyone else. */
  function RoleBadgeVariant(user: Option<User>): (v: BadgeVariant)
    ensures v == Default <==> ShowsAdminLink(user)
    ensures v != Outline
  {
    if ShowsAdminLink(user) then Default else Secondary
  }

  /** The shown id: `user?.id?.slice(0, 8)`, the first eight characters or the whole id if shorter. */
  function IdPrefix(user: Option<User>): (r: Option<string>)
    ensures r.Some? <==> user.Some?
    ensures user.Some? ==> var id := user.value.id;
      |r.value| == (if |id| < 8 then |id| else 8) && r.value == id[..|r.value|]
  {
    match user
    case None => None
    case Some(u) => Some(if |u.id| < 8 then u.id else u.id[..8])
  }

  /** The email under the welcome line: the email, else "No email provided". */
  function WelcomeEmail(user: Option<User>): (r: string)
    ensures Truthy(EmailOf(user)) ==> r == user.value.email.value
    ensures !Truthy(EmailOf(user)) ==> r == "No email provided"
  {
    OrElse(EmailOf(user), "No email provided")
  }

  /** The email in the account card: the email, else "Not provided". */
  function AccountEmail(user: Option<User>): (r: string)
    ensures Truthy(EmailOf(user)) ==> r == user.value.email.value
    ensures !Truthy(EmailOf(user)) ==> r == "Not provided"
  {
    OrElse(EmailOf(user), "Not provided")
  }

  /** For a stored record (whose role is one of the enum's names) the badge
      shows the stored role itself and "user" is never substituted. */
  lemma StoredRoleShownAsIs(u: User)
    requires u.role in UserRoleNames
    ensures RoleBadgeText(Some(u)) == u.role
  {
  }
}
