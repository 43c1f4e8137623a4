/** String helpers the three pages share: JavaScript truthiness of an optional
    string, ASCII upper-casing, the part of an email before its '@', and the
    initials and display-name fallback chains. */
module Display {
  import opened Schema

  /** JavaScript truthiness of an optional string: null, undefined and the
      empty string all count as absent. */
  predicate Truthy(o: Option<string>)
  {
    o.Some? && o.value != []
  }

  predicate IsLowerAscii(c: char)
  {
    'a' <= c <= 'z'
  }

  /** `toUpperCase` on one character, restricted to ASCII letters. */
  function UpperChar(c: char): (u: char)
    ensures !IsLowerAscii(u)
    ensures u == c || (IsLowerAscii(c) && u as int + 32 == c as int)
  {
    if IsLowerAscii(c) then (c as int - 32) as char else c
  }

  /** `s.split("@")[0]`: the longest prefix of `s` without an '@'. */
  function BeforeFirstAt(s: string): (r: string)
    ensures |r| <= |s| && r == s[..|r|]
    ensures '@' !in r
    ensures |r| < |s| ==> s[|r|] == '@'
  {
    if s == [] || s[0] == '@' then [] else [s[0]] + BeforeFirstAt(s[1..])
  }

  /** `getInitials`: the upper-cased first letters of both names when both are
      present, else the upper-cased first letter of the email, else "U". */
  function Initials(firstName: Option<string>, lastName: Option<string>, email: Option<string>): (r: string)
    ensures 1 <= |r| <= 2
    ensures forall i :: 0 <= i < |r| ==> !IsLowerAscii(r[i])
    ensures |r| == 2 <==> Truthy(firstName) && Truthy(lastName)
    ensures |r| == 2 ==> r == [UpperChar(firstName.value[0]), UpperChar(lastName.value[0])]
    ensures |r| == 1 && Truthy(email) ==> r == [UpperChar(email.value[0])]
    ensures |r| == 1 && !Truthy(email) ==> r == "U"
  {
    if Truthy(firstName) && Truthy(lastName) then [UpperChar(firstName.value[0]), UpperChar(lastName.value[0])]
    else if Truthy(email) then [UpperChar(email.value[0])]
    else "U"
  }

  /** `getDisplayName`: "first last" when both names are present, else the
      first name, else the email up to its '@', else `fallback` (the admin page
      uses "Unknown", the home and profile pages "User"). */
  function DisplayName(firstName: Option<string>, lastName: Option<string>, email: Option<string>,
                       fallback: string): (r: string)
    ensures Truthy(firstName) ==> |firstName.value| <= |r| && r[..|firstName.value|] == firstName.value
    ensures Truthy(firstName) && Truthy(lastName) ==> r == firstName.value + " " + lastName.value
    ensures Truthy(firstName) && !Truthy(lastName) ==> r == firstName.value
    ensures !Truthy(firstName) && Truthy(email) ==> r == BeforeFirstAt(email.value)
    ensures !Truthy(firstName) && Truthy(email) && '@' !in email.value ==> r == email.value
    ensures !Truthy(firstName) && !Truthy(email) ==> r == fallback
  {
    if Truthy(firstName) && Truthy(lastName) then firstName.value + " " + lastName.value
    else if Truthy(firstName) then firstName.value
    else if Truthy(email) then BeforeFirstAt(email.value)
    else fallback
  }

  /** The avatar initials are the upper-cased first letters of the displayed
      name when that name comes from both names (the first letter and the one
      after the space) or from an email that does not start with '@'. */
  lemma InitialsAgreeWithDisplayName(firstName: Option<string>, lastName: Option<string>, email: Option<string>,
                                     fallback: string)
    ensures Truthy(firstName) && Truthy(lastName) ==>
      var name := DisplayName(firstName, lastName, email, fallback);
      Initials(firstName, lastName, email) == [UpperChar(name[0]), UpperChar(name[|firstName.value| + 1])]
    ensures !Truthy(firstName) && Truthy(email) && email.value[0] != '@' ==>
      var name := DisplayName(firstName, lastName, email, fallback);
      |name| > 0 && Initials(firstName, lastName, email) == [UpperChar(name[0])]
  {
    if Truthy(firstName) && Truthy(lastName) {
      var name := firstName.value + " " + lastName.value;
      assert name[|firstName.value| + 1] == lastName.value[0];
    }
    if !Truthy(firstName) && Truthy(email) && email.value[0] != '@' {
      var name := BeforeFirstAt(email.value);
      assert |name| > 0;
    }
  }

  /** When only the first name is present, the displayed name is the first
      name while the initials come from the email (or are "U"): the two
      helpers do not draw on the same field. */
  lemma InitialsIgnoreLoneFirstName(firstName: Option<string>, lastName: Option<string>, email: Option<string>,
                                    fallback: string)
    requires Truthy(firstName) && !Truthy(lastName)
    ensures DisplayName(firstName, lastName, email, fallback) == firstName.value
    ensures Initials(firstName, lastName, email) == if Truthy(email) then [UpperChar(email.value[0])] else "U"
  {
  }

  /** The variants of the role badge. */
  datatype BadgeVariant = Default | Secondary | Outline

  /** What `formatDate` shows: "Unknown" for a missing date, else the date
      rendered for the locale. */
  datatype DateLabel = Unknown | Formatted(at: Timestamp)

  /** `formatDate`: "Unknown" exactly when there is no date. */
  function FormatDate(date: Option<Timestamp>): (shown: DateLabel)
    ensures shown == Unknown <==> date.None?
    ensures date.Some? ==> shown.at == date.value
  {
    match date
    case None => Unknown
    case Some(t) => Formatted(t)
  }

  /** `value || fallback` for an optional string. */
  function OrElse(value: Option<string>, fallback: string): (r: string)
    ensures Truthy(value) ==> r == value.value
    ensures !Truthy(value) ==> r == fallback
  {
    if Truthy(value) then value.value else fallback
  }

  /** `user?.firstName`, `user?.lastName`, `user?.email`: a field of a user
      record that may itself be missing. */
  function FirstNameOf(user: Option<User>): Option<string>
  {
    if user.Some? then user.value.firstName else None
  }

  function LastNameOf(user: Option<User>): Option<string>
  {
    if user.Some? then user.value.lastName else None
  }

  function EmailOf(user: Option<User>): Option<string>
  {
    if user.Some? then user.value.email else None
  }
}
