/** The profile page's helpers and display rules. */
module ProfilePage {
  import opened Schema
  import opened Display
  import HomePage
  import AdminPage

  datatype ProfileView = Loading | Nothing | Page

  /** A spinner while loading, nothing once loading has finished without an
      authenticated user, else the page. */
  function View(isLoading: bool, isAuthenticated: bool): (v: ProfileView)
    ensures v == Nothing <==> !isLoading && !isAuthenticated
    ensures v == Page <==> !isLoading && isAuthenticated
  {
    if isLoading then Loading
    else if !isAuthenticated then Nothing
    else Page
  }

  /** `getInitials` */
  function GetInitials(user: Option<User>): (r: string)
    ensures user.None? ==> r == "U"
    ensures user.Some? ==> r == AdminPage.GetInitials(user.value)
  {
    Initials(FirstNameOf(user), LastNameOf(user), EmailOf(user))
  }

  /** `getDisplayName`, whose last fallback is "User". */
  function GetDisplayName(user: Option<User>): (r: string)
    ensures user.None? ==> r == "User"
    ensures user.Some? && (Truthy(user.value.firstName) || Truthy(user.value.email)) ==>
      r == AdminPage.GetDisplayName(user.value)
  {
    DisplayName(FirstNameOf(user), LastNameOf(user), EmailOf(user), "User")
  }

  /** The "Full Name" field: "first last" when both names are present, else
      "Not provided", even when the first name alone is present. */
  function FullName(user: Option<User>): (r: string)
    ensures Truthy(FirstNameOf(user)) && Truthy(LastNameOf(user)) ==> r == GetDisplayName(user)
    ensures !(Truthy(FirstNameOf(user)) && Truthy(LastNameOf(user))) ==> r == "Not provided"
  {
    if Truthy(FirstNameOf(user)) && Truthy(LastNameOf(user)) then
      FirstNameOf(user).value + " " + LastNameOf(user).value
    else "Not provided"
  }

  /** The email under the name: the email, else "No email provided". */
  function HeaderEmail(user: Option<User>): (r: string)
    ensures Truthy(EmailOf(user)) ==> r == user.value.email.value
    ensures !Truthy(EmailOf(user)) ==> r == "No email provided"
  {
    OrElse(EmailOf(user), "No email provided")
  }

  /** The "Email Address" field: the email, else "Not provided". */
  function EmailDetail(user: Option<User>): (r: string)
    ensures Truthy(EmailOf(user)) ==> r == user.value.email.value
    ensures !Truthy(EmailOf(user)) ==> r == "Not provided"
  {
    OrElse(EmailOf(user), "Not provided")
  }

  /** The profile page and the home page show the same initials and the same
      name; the admin page shows the same initials, and the same name except
      that its last fallback is "Unknown" rather than "User". The agreement
      comes from the pages sharing the definitions in `Display`; this lemma
      records where the one difference lies. */
  lemma PagesAgreeOnNames(u: User)
    ensures GetInitials(Some(u)) == HomePage.GetInitials(Some(u)) == AdminPage.GetInitials(u)
    ensures GetDisplayName(Some(u)) == HomePage.GetDisplayName(Some(u))
    ensures AdminPage.GetDisplayName(u) != GetDisplayName(Some(u)) ==>
      !Truthy(u.firstName) && !Truthy(u.email) &&
      AdminPage.GetDisplayName(u) == "Unknown" && GetDisplayName(Some(u)) == "User"
  {
  }
}
