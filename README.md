# Secure-User-Authentication: role-based access control, in Dafny

This project models the role-based access control of a small web application
that signs users in through an external identity provider. It keeps one row
per user, and each row has a role: `guest`, `user` or `admin`. The model covers
these parts:

- **The role gate** (`requireRole`). It guards the admin routes. It answers 404
  when the caller has no row and 403 when the caller's role is not allowed.
  Otherwise the request goes on with the caller's row attached.
- **The role-change route**. It runs four guards in a fixed order:
  - no change of one's own role (400),
  - a role outside the enum (400),
  - a missing target (404),
  - a target who is already an admin (403).

  Only when all four pass does the route write an audit line and then the new
  role.
- **The profile-update route**. It validates the optional `firstName` and
  `lastName` (1 to 50 characters each) before it writes anything.
- **The admin dashboard**:
  - who may see it,
  - the one control each user row shows,
  - the role badge and the role counts,
  - the slot that parks a promotion to admin until the operator confirms it.
- **The display helpers** of the three pages (initials, display name, the
  "Not provided" fallbacks). They follow JavaScript truthiness, so an empty
  string counts as absent.

Files:

- `schema.dfy` (module `Schema`): the role enum and the names it is stored
  under, the users row, the table invariant `ValidStore`, and the two
  request-body validators.
- `routes.dfy` (module `Routes`): the server.
  - Pure functions say what one request does to the state (users table and
    audit log): `Gate`, `RoleChangeHandler`, `PatchRoleStep`,
    `PatchProfileStep`.
  - Lemmas prove the policy's properties for one request and for any
    sequence of requests (`Run`).
  - Class `Backend` holds the table as a `map` and the audit log as a `seq`.
    Its handler methods are written step by step like the route code and are
    proved equal to the pure functions.
- `admin.dfy` (module `AdminPage`): the dashboard.
  - Class `AdminPageState` holds the `pendingRoleChange` slot and the role
    mutations sent so far. Its methods are proved against the pure
    `RoleChangeStep` and `ConfirmStep`.
  - Lemmas cover any sequence of page events.
- `display.dfy` (module `Display`), `home.dfy` (module `HomePage`),
  `profile.dfy` (module `ProfilePage`): the string helpers of the pages.

The role column is a `varchar(20)` string. The model stores it as a string,
as the database does. `ValidStore` states that every stored role is one of
the enum's names. The proofs show that every write keeps this true:
`NewRowKeepsStoreValid` covers the column default, and
`PatchRoleKeepsStoreValid` and `RunKeepsInvariants` cover the role route.

Three behaviours of the code worth noting:

- GET `/api/auth/user` answers with an empty body, not 404, when the caller
  has no row.
- A request for the role the target already has still writes the row and
  still emits an audit line.
- The audit line carries actor, target, old role and new role, and no
  timestamp.

## Model

| member | source | states |
|---|---|---|
| `Schema.RoleName` | shared/schema.ts:13-14 | every role's name is one of the schema's role names and fits the 20-character role column |
| `Schema.ParseRole` | shared/schema.ts:13-14 | a string denotes a role exactly when it is one of the three names, and it then names that role |
| `Schema.RoleNameRoundTrip` | shared/schema.ts:13-14 | reading back a role's name gives the same role |
| `Schema.UserRoleNamesAreTheEnum` | shared/schema.ts:13-14 | the role list has exactly three names, no duplicates, is exactly the set `ParseRole` accepts, and each name fits the role column |
| `Schema.ParseProfile` | shared/schema.ts:44-47 | a profile body is accepted iff it is an object whose firstName and lastName are each absent or a string of 1..50 characters; the accepted data carries exactly the present fields |
| `Schema.EmptyProfileBodyIsValid` | shared/schema.ts:44-47 | the empty object is a valid profile update that sets nothing |
| `Schema.ParseRoleBody` | shared/schema.ts:49-51 | a role body is accepted iff its `role` is a string among the enum's names, and the parsed role's name is that string |
| `Schema.ValidStore` | shared/schema.ts:28-37 | in a valid table every stored role parses to one of the three roles and fits the 20-character column |
| `Schema.NewRow` | shared/schema.ts:28-37 | a new row takes the given id, email and names, the role column's default "user" (which parses to the regular role), and equal creation and update times |
| `Schema.NewRowKeepsStoreValid` | shared/schema.ts:28-37 | a new row gets role "user" by default; inserting it under a fresh id with an unused email keeps ids as keys, roles in the enum and emails unique |
| `Display.UpperChar` | client/src/pages/home.tsx:25 | upper-casing (ASCII only) leaves no lower-case letter and changes only lower-case letters |
| `Display.BeforeFirstAt` | client/src/pages/home.tsx:41 | `split("@")[0]` is the longest prefix without an '@': a prefix, '@'-free, and followed by '@' when shorter than the input |
| `Display.Initials` | client/src/pages/home.tsx:23-31 | initials are 1 or 2 characters, none lower-case: both names' first letters when both are non-empty, else the email's first letter, else "U" |
| `Display.DisplayName` | client/src/pages/home.tsx:33-44 | the name is "first last" when both are non-empty, else the first name, else the part of the email before its first '@' (`BeforeFirstAt`, the whole email when it has no '@'), else the fallback |
| `Display.InitialsAgreeWithDisplayName` | client/src/pages/profile.tsx:52-73 | the initials are the upper-cased first letters of the shown name when it comes from both names or from an email not starting with '@' |
| `Display.InitialsIgnoreLoneFirstName` | client/src/pages/admin.tsx:112-133 | with only a first name, the shown name is that name while the initials come from the email or are "U" |
| `Display.FormatDate` | client/src/pages/profile.tsx:75-76 | "Unknown" exactly when the date is missing, otherwise the date itself |
| `Display.OrElse` | client/src/pages/profile.tsx:132 | the JavaScript `or` of an optional string and a fallback: the value when it is a non-empty string, else the fallback ("No email provided", "Not provided", "No email") |
| `HomePage.GetInitials` | client/src/pages/home.tsx:23-31 | before the user record arrives the initials are "U" |
| `HomePage.GetDisplayName` | client/src/pages/home.tsx:33-44 | before the user record arrives the name is "User" |
| `HomePage.RoleBadgeText` | client/src/pages/home.tsx:212 | the badge shows the role when it is non-empty, else "user"; it is never empty |
| `HomePage.RoleBadgeVariant` | client/src/pages/home.tsx:207 | the badge is "default" exactly when the admin-dashboard link is shown (role "admin"), else "secondary" |
| `HomePage.ShowsAdminLink` | client/src/pages/home.tsx:65-72 | the admin-dashboard link is shown exactly when the record's role parses to the admin role |
| `HomePage.WelcomeEmail` | client/src/pages/home.tsx:106 | the email when it is non-empty, else "No email provided" |
| `HomePage.AccountEmail` | client/src/pages/home.tsx:202 | the email when it is non-empty, else "Not provided" |
| `HomePage.IdPrefix` | client/src/pages/home.tsx:198 | the shown id is the prefix whose length is the smaller of 8 and the id's length |
| `HomePage.StoredRoleShownAsIs` | client/src/pages/home.tsx:206-213 | for a stored row the badge text is the stored role itself |
| `ProfilePage.View` | client/src/pages/profile.tsx:37-50 | the page renders nothing exactly when loading has finished and the user is not authenticated |
| `ProfilePage.GetInitials` | client/src/pages/profile.tsx:52-60 | "U" before the record arrives, otherwise the same initials as the admin page's |
| `ProfilePage.GetDisplayName` | client/src/pages/profile.tsx:61-72 | "User" before the record arrives; whenever a first name or an email is present, the same name as the admin page's |
| `ProfilePage.HeaderEmail` | client/src/pages/profile.tsx:132 | the email when it is non-empty, else "No email provided" |
| `ProfilePage.EmailDetail` | client/src/pages/profile.tsx:159 | the email when it is non-empty, else "Not provided" |
| `ProfilePage.FullName` | client/src/pages/profile.tsx:147-149 | "Full Name" is the display name when both names are non-empty, else "Not provided", even when the first name alone exists |
| `ProfilePage.PagesAgreeOnNames` | client/src/pages/profile.tsx:52-73 | the three pages show the same initials; profile and home show the same name; admin differs only in its final fallback ("Unknown" vs "User") |
| `Routes.Gate` | server/routes.ts:8-20 | 404 iff the caller has no row; 403 iff the row's role is not among the allowed roles; otherwise continue with `dbUser` equal to the stored row |
| `Routes.AdminGateAdmitsExactlyAdmins` | server/routes.ts:66 | `requireRole("admin")` lets through exactly the callers whose stored role is "admin" |
| `Routes.PatchRoleStep` | server/routes.ts:77-110 | 404 for a caller with no row and 403 for a non-admin caller, both with no change; every refusal leaves the state unchanged; accepted iff the caller is an admin, the target is another existing non-admin row and the body is valid |
| `Routes.RoleChangeHandler` | server/routes.ts:79-110 | self-target gives 400 and nothing else; every refusal leaves the state unchanged; the request is accepted iff target differs from caller, the body is valid, the target exists and is not an admin |
| `Routes.SelfTargetAlwaysRefused` | server/routes.ts:82-85 | a role change aimed at oneself never changes anything, and gives 400 "Cannot change your own role" exactly when the caller passes the gate, whatever the body |
| `Routes.GuardOrder` | server/routes.ts:87-101 | an invalid body gives 400 before the target is looked up; a missing target gives 404; an admin target gives 403 |
| `Routes.RefusalChangesNothing` | server/routes.ts:83-101 | any refused role change leaves the users table and the audit log unchanged |
| `Routes.AcceptedChangeTouchesOnlyTargetRole` | server/routes.ts:103-110 | an accepted change was made by an admin on another, non-admin row; it sets that row's role to the requested one, changes no other row or field, and appends exactly one audit line (actor, target, old, new) |
| `Routes.NoDemotion` | server/routes.ts:98-101 | no role change alters an admin's row, so the set of admins only grows |
| `Routes.SameRoleIsAcceptedNoOp` | server/routes.ts:99-106 | requesting the target's current role succeeds and leaves the table unchanged, with one audit line written |
| `Routes.PatchRoleKeepsStoreValid` | server/routes.ts:87-106 | a role change keeps the table valid; it only appends audit lines, each moving a non-admin role to an enum name |
| `Routes.PatchProfileStep` | server/routes.ts:47-58 | an invalid body gives 400 with no change; a missing row gives 404 with no change; otherwise only the caller's name fields change: a name present in the body is stored as sent, an absent one keeps its stored value, and the audit log is untouched |
| `Routes.ProfileRoundTrip` | server/routes.ts:47-58 | after updating with valid first and last names, the caller's row carries exactly those names |
| `Routes.PatchProfileKeepsStoreValid` | server/routes.ts:54 | a profile update keeps the table valid and the set of admins unchanged |
| `Routes.RunKeepsInvariants` | server/routes.ts:47-115 | over any sequence of requests, the table stays valid, admins only grow, the audit log is only appended to, and each appended line records a move from a non-admin role to an enum name |
| `Routes.AdminRowsSurviveRuns` | server/routes.ts:98-101 | an admin stays an admin through any sequence of requests |
| `Routes.Backend.GetUser` | server/routes.ts:12 | the store's lookup returns the row under the id, or nothing when there is none |
| `Routes.Backend.UpdateUserRole` | server/routes.ts:106 | the store's role write replaces only that row's role and returns the row, or returns nothing and changes nothing |
| `Routes.Backend.UpdateUserProfile` | server/routes.ts:54 | the store's profile write replaces only the names the data carries, or returns nothing and changes nothing |
| `Routes.Backend.RequireRole` | server/routes.ts:8-26 | the middleware's outcome is `Gate` on the current table, and it changes nothing |
| `Routes.Backend.HandleGetAuthUser` | server/routes.ts:35-44 | returns the caller's row, or an empty answer when there is none |
| `Routes.Backend.HandleListUsers` | server/routes.ts:66-74 | the whole table is returned iff the caller is an admin, otherwise the gate's error |
| `Routes.Backend.HandlePatchProfile` | server/routes.ts:47-63 | the handler's response and new state are those of `PatchProfileStep`, and the table stays valid |
| `Routes.Backend.HandlePatchUserRole` | server/routes.ts:77-115 | the response and new state are those of `PatchRoleStep` (gate, guards, audit line, write); refusals change nothing; admins only grow; the table stays valid |
| `AdminPage.GetDisplayName` | client/src/pages/admin.tsx:122-133 | "first last" when both names are non-empty, else the first name, else the email before its first '@', else "Unknown" |
| `AdminPage.GetInitials` | client/src/pages/admin.tsx:112-120 | 1 or 2 characters, two exactly when both names are non-empty, "U" when a single letter cannot come from the email |
| `AdminPage.EmailLine` | client/src/pages/admin.tsx:285 | the email when it is non-empty, else "No email" |
| `AdminPage.View` | client/src/pages/admin.tsx:97-110 | a spinner while either load runs; the dashboard exactly for an authenticated admin |
| `AdminPage.GetRoleBadgeVariant` | client/src/pages/admin.tsx:135-146 | "default" iff the role is admin, "outline" iff guest, "secondary" otherwise (unknown roles included) |
| `AdminPage.RowControlFor` | client/src/pages/admin.tsx:293-319 | of the three render conditions exactly one holds for every row; the selector shows iff the row is another non-admin |
| `AdminPage.SelectorMirrorsServerPolicy` | client/src/pages/admin.tsx:293-308 | for an admin viewer and an up-to-date row, the selector shows exactly when the server would accept a change of that row to any role |
| `AdminPage.TotalCount` | client/src/pages/admin.tsx:224 | `users?.length || 0`: the number of users, and 0 before the list arrives |
| `AdminPage.RoleCount` | client/src/pages/admin.tsx:236-248 | the card's count is at most the total count, and 0 exactly when the list has not arrived or no user has that role |
| `AdminPage.CountRole` | client/src/pages/admin.tsx:236 | a role's count is at most the number of users, and zero iff no user has that role |
| `AdminPage.DistinctRolesCountedOnce` | client/src/pages/admin.tsx:236-248 | the counts of two different roles add up to at most the number of users |
| `AdminPage.AdminAndUserCardsWithinTotal` | client/src/pages/admin.tsx:224-248 | the admin count plus the regular-user count is at most the total count |
| `AdminPage.RoleChangeStep` | client/src/pages/admin.tsx:148-162 | picking the current role does nothing; promoting to admin parks (id, name, current role, "admin") and sends nothing; any other change sends (id, role) and keeps the slot |
| `AdminPage.ConfirmStep` | client/src/pages/admin.tsx:164-168 | confirming sends exactly the parked user id and role, keeps the slot, and does nothing when the slot is empty |
| `AdminPage.NextKeepsPromotionDiscipline` | client/src/pages/admin.tsx:148-168 | every page event keeps the parked change a promotion and only appends to what was sent; only the confirm button sends a promotion |
| `AdminPage.PromotionsNeedConfirmation` | client/src/pages/admin.tsx:148-168 | over any sequence of events, the page sends no more promotions to admin than there were confirm clicks |
| `AdminPage.AdminPageState.constructor` | client/src/pages/admin.tsx:45 | the slot starts empty and nothing has been sent |
| `AdminPage.AdminPageState.Mutate` | client/src/pages/admin.tsx:52-56 | a mutation call appends (user id, role) to what was sent and keeps the slot |
| `AdminPage.AdminPageState.HandleRoleChange` | client/src/pages/admin.tsx:148-162 | the new slot and sent list are those of `RoleChangeStep` |
| `AdminPage.AdminPageState.ConfirmRoleChange` | client/src/pages/admin.tsx:164-168 | the new slot and sent list are those of `ConfirmStep` |
| `AdminPage.AdminPageState.OnSuccess` | client/src/pages/admin.tsx:57-64 | success clears the slot and sends nothing |
| `AdminPage.AdminPageState.OnError` | client/src/pages/admin.tsx:65-72 | an error clears the slot and sends nothing |
| `AdminPage.AdminPageState.OnDialogOpenChange` | client/src/pages/admin.tsx:334 | dismissing the dialog clears the slot and sends nothing |

## Left out

- `server/storage.ts` is not part of this model. The store is a `map` from id to row, behind `getUser`, `updateUserRole` and `updateUserProfile` with the contracts above. `getAllUsers` returns the whole map, so its order is not modelled.
- Storage failures and the 500 answers (server/routes.ts:21-24, 40-43, 59-62, 70-73, 111-114) are left out, because the abstract map never fails.
- The second 404 after the role write (server/routes.ts:107-109) is written in `Backend.HandlePatchUserRole`. It cannot be reached, because requests are handled one at a time.
- Concurrent requests, and the last-writer-wins race between the read of the target and the write, are left out: the model handles one request at a time.
- The identity-provider sign-in (`setupAuth`, `isAuthenticated`, `req.user.claims.sub`), the session table and `insertUserSchema` are not part of this model. The caller's id is an input to every request.
- `updatedAt`/`createdAt` maintenance by the store and the locale formatting of dates are left out, because they depend on the clock and the locale. `FormatDate` keeps only the missing-date branch; a present date is shown as `Formatted(t)`.
- `console.log` of the audit line is modelled as an entry appended to `auditLog`; `console.error` is left out as output only.
- `Display.UpperChar` upper-cases ASCII letters only. Unicode `toUpperCase`, which can change a string's length, is not modelled.
- String lengths are counted in characters. zod counts UTF-16 code units, and the two differ only for characters outside the Basic Multilingual Plane.
- React Query fetching, caching and `invalidateQueries`, the HTTP transport, toasts, redirects, the `setTimeout` delay, and JSX layout are left out as presentation and framework code. The "mutation pending" flag that disables the selector and the confirm button is left out too.
- The `errors` detail (`result.error.flatten()`) that both 400 "Invalid data" answers carry (server/routes.ts:52, 89) is not modelled: `Failure` keeps only the status and the message.
- Request bodies are modelled as a JSON object with string-or-other field values. Any other JSON shape is `NotObject`, which both validators refuse.
- `client/src/pages/landing.tsx` is static markup with no logic.
