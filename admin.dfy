/** The admin dashboard: who may see it, the per-row controls, the role badge,
    the role counts, and the slot that holds an admin promotion until the
    operator confirms it. */
module AdminPage {
  import opened Schema
  import opened Display
  import Routes

  /** The admin page's `getDisplayName`, whose last fallback is "Unknown". */
  function GetDisplayName(u: User): (r: string)
    ensures Truthy(u.firstName) && Truthy(u.lastName) ==> r == u.firstName.value + " " + u.lastName.value
    ensures Truthy(u.firstName) && !Truthy(u.lastName) ==> r == u.firstName.value
    ensures !Truthy(u.firstName) && Truthy(u.email) ==> r == BeforeFirstAt(u.email.value)
    ensures !Truthy(u.firstName) && !Truthy(u.email) ==> r == "Unknown"
  {
    DisplayName(u.firstName, u.lastName, u.email, "Unknown")
  }

  /** The admin page's `getInitials`. */
  function GetInitials(u: User): (r: string)
    ensures 1 <= |r| <= 2
    ensures |r| == 2 <==> Truthy(u.firstName) && Truthy(u.lastName)
    ensures |r| == 1 && !Truthy(u.email) ==> r == "U"
  {
    Initials(u.firstName, u.lastName, u.email)
  }

  /** The email line of a row: the email, or "No email" when it is absent or empty. */
  function EmailLine(u: User): (r: string)
    ensures Truthy(u.email) ==> r == u.email.value
    ensures !Truthy(u.email) ==> r == "No email"
  {
    OrElse(u.email, "No email")
  }

  // ---------------------------------------------------------------------------
  // What the page renders

  datatype AdminView = Loading | Nothing | Dashboard

  /** The users query runs only for an authenticated admin. */
  predicate UsersQueryEnabled(isAuthenticated: bool, viewer: Option<User>)
  {
    isAuthenticated && viewer.Some? && viewer.value.role == "admin"
  }

  /** A spinner while either load is in flight, nothing for anyone who is not
      an authenticated admin, else the dashboard. */
  function View(authLoading: bool, usersLoading: bool, isAuthenticated: bool, viewer: Option<User>): (v: AdminView)
    ensures v == Loading <==> authLoading || usersLoading
    ensures v == Dashboard <==> !authLoading && !usersLoading && UsersQueryEnabled(isAuthenticated, viewer)
  {
    if authLoading || usersLoading then Loading
    else if !isAuthenticated || viewer.None? || viewer.value.role != "admin" then Nothing
    else Dashboard
  }

  /** `getRoleBadgeVariant`: admin is shown as default, guest as outline, and
      every other role, known or not, as secondary. */
  function GetRoleBadgeVariant(role: string): (v: BadgeVariant)
    ensures v == Default <==> role == "admin"
    ensures v == Outline <==> role == "guest"
  {
    match role
    case "admin" => Default
    case "user" => Secondary
    case "guest" => Outline
    case _ => Secondary
  }

  /** The control a row shows beside the badge. */
  datatype RowControl = RoleSelector | ProtectedBadge | YouBadge

  /** The three independent render conditions of a row: the role selector for
      another user who is not an admin, "Protected" for another admin, "You"
      for the viewer's own row. */
  function RowControlsShown(u: User, viewerId: string): set<RowControl>
  {
    (if u.id != viewerId && u.role != "admin" then {RoleSelector} else {})
    + (if u.id != viewerId && u.role == "admin" then {ProtectedBadge} else {})
    + (if u.id == viewerId then {YouBadge} else {})
  }

  /** Every row shows exactly one of the three controls. */
  function RowControlFor(u: User, viewerId: string): (c: RowControl)
    ensures RowControlsShown(u, viewerId) == {c}
    ensures c == RoleSelector <==> u.id != viewerId && u.role != "admin"
  {
    if u.id == viewerId then YouBadge
    else if u.role == "admin" then ProtectedBadge
    else RoleSelector
  }

  /** The row controls mirror the server's policy: for an admin viewer and a
      row that shows the current record, the role selector appears exactly
      when the server would accept a change of that row's role, whatever role
      is chosen. */
  lemma SelectorMirrorsServerPolicy(s: Routes.State, viewerId: string, u: User, role: UserRole)
    requires viewerId in Routes.Admins(s.users)
    requires u.id in s.users && s.users[u.id] == u
    ensures var body := Object(map["role" := JString(RoleName(role))]);
      RowControlFor(u, viewerId) == RoleSelector <==> Routes.PatchRoleStep(s, viewerId, u.id, body).0.Ok?
  {
    Routes.AdminGateAdmitsExactlyAdmins(s.users, viewerId);
    var body := Object(map["role" := JString(RoleName(role))]);
    RoleNameRoundTrip(role);
    assert ParseRoleBody(body) == Parsed(role);
  }

  // ---------------------------------------------------------------------------
  // Role counts

  /** `users?.length || 0` */
  function TotalCount(users: Option<seq<User>>): (n: nat)
    ensures users.None? ==> n == 0
    ensures users.Some? ==> n == |users.value|
  {
    if users.Some? then |users.value| else 0
  }

  /** How many of the users have exactly this role. */
  function CountRole(users: seq<User>, role: string): (n: nat)
    ensures n <= |users|
    ensures n == 0 <==> forall i :: 0 <= i < |users| ==> users[i].role != role
    decreases |users|
  {
    if users == [] then 0
    else CountRole(users[1..], role) + (if users[0].role == role then 1 else 0)
  }

  /** `users?.filter(u => u.role === role).length || 0` */
  function RoleCount(users: Option<seq<User>>, role: string): (n: nat)
    ensures n <= TotalCount(users)
    ensures n == 0 <==> users.None? || forall i :: 0 <= i < |users.value| ==> users.value[i].role != role
  {
    if users.Some? then CountRole(users.value, role) else 0
  }

  /** No user is counted both as an admin and as a regular user. */
  lemma {:induction false} DistinctRolesCountedOnce(users: seq<User>, r1: string, r2: string)
    requires r1 != r2
    ensures CountRole(users, r1) + CountRole(users, r2) <= |users|
    decreases |users|
  {
    if users != [] {
      DistinctRolesCountedOnce(users[1..], r1, r2);
    }
  }

  /** The admin card plus the regular-user card never exceed the total card. */
  lemma AdminAndUserCardsWithinTotal(users: Option<seq<User>>)
    ensures RoleCount(users, "admin") + RoleCount(users, "user") <= TotalCount(users)
  {
    if users.Some? {
      DistinctRolesCountedOnce(users.value, "admin", "user");
    }
  }

  // ---------------------------------------------------------------------------
  // The promotion-confirmation slot

  /** The promotion parked for confirmation: whom, under what name, from what role, to what role. */
  datatype PendingRoleChange = PendingRoleChange(userId: string, userName: string, currentRole: string, newRole: string)

  /** One call of the role mutation: PATCH the user's role to `role`. */
  datatype RoleMutation = RoleMutation(userId: string, role: string)

  /** The page's slot and the mutations it has sent so far, in order. */
  datatype PageState = PageState(pending: Option<PendingRoleChange>, sent: seq<RoleMutation>)

  /** `handleRoleChange(u, newRole)`: choosing the current role does nothing;
      a promotion to admin is parked and nothing is sent; any other change is
      sent at once and the slot is left as it was. */
  function RoleChangeStep(p: PageState, u: User, newRole: string): (p': PageState)
    ensures newRole == u.role ==> p' == p
    ensures newRole != u.role && newRole == "admin" ==>
      p'.sent == p.sent && p'.pending == Some(PendingRoleChange(u.id, GetDisplayName(u), u.role, "admin"))
    ensures newRole != u.role && newRole != "admin" ==>
      p'.pending == p.pending && p'.sent == p.sent + [RoleMutation(u.id, newRole)]
  {
    if newRole == u.role then p
    else if newRole == "admin" && u.role != "admin" then
      p.(pending := Some(PendingRoleChange(u.id, GetDisplayName(u), u.role, newRole)))
    else p.(sent := p.sent + [RoleMutation(u.id, newRole)])
  }

  /** `confirmRoleChange()`: send the parked change, if there is one;
      `confirmRoleChange` itself leaves the slot as it is (closing the dialog,
      a separate `DialogDismissed` event, clears it). */
  function ConfirmStep(p: PageState): (p': PageState)
    ensures p'.pending == p.pending
    ensures p.pending.None? ==> p' == p
    ensures p.pending.Some? ==> p'.sent == p.sent + [RoleMutation(p.pending.value.userId, p.pending.value.newRole)]
  {
    match p.pending
    case None => p
    case Some(change) => p.(sent := p.sent + [RoleMutation(change.userId, change.newRole)])
  }

  /** What can happen on the page: a role picked in a row's selector, the
      confirm button, the mutation settling either way, the dialog dismissed. */
  datatype Event = SelectRole(u: User, newRole: string) | Confirm | MutationSucceeded | MutationFailed | DialogDismissed

  function Next(p: PageState, e: Event): PageState
  {
    match e
    case SelectRole(u, newRole) => RoleChangeStep(p, u, newRole)
    case Confirm => ConfirmStep(p)
    case MutationSucceeded => p.(pending := None)
    case MutationFailed => p.(pending := None)
    case DialogDismissed => p.(pending := None)
  }

  function Replay(p: PageState, events: seq<Event>): PageState
    decreases |events|
  {
    if events == [] then p else Replay(Next(p, events[0]), events[1..])
  }

  /** A parked change is always a promotion of a non-admin to admin. */
  predicate PendingIsPromotion(p: PageState)
  {
    p.pending.Some? ==> p.pending.value.newRole == "admin" && p.pending.value.currentRole != "admin"
  }

  /** The number of mutations that ask for the admin role, counted from the end. */
  function PromotionsSent(sent: seq<RoleMutation>): (n: nat)
    ensures n <= |sent|
    decreases |sent|
  {
    if sent == [] then 0
    else PromotionsSent(sent[..|sent| - 1]) + (if sent[|sent| - 1].role == "admin" then 1 else 0)
  }

  function ConfirmClicks(events: seq<Event>): (n: nat)
    ensures n <= |events|
    decreases |events|
  {
    if events == [] then 0 else (if events[0] == Confirm then 1 else 0) + ConfirmClicks(events[1..])
  }

  /** One event keeps the slot a promotion, only appends to what was sent, and
      sends a promotion only when it is the confirm button pressed on a parked
      promotion. */
  lemma NextKeepsPromotionDiscipline(p: PageState, e: Event)
    requires PendingIsPromotion(p)
    ensures var p' := Next(p, e);
      && PendingIsPromotion(p')
      && p.sent <= p'.sent
      && PromotionsSent(p'.sent) <= PromotionsSent(p.sent) + (if e == Confirm then 1 else 0)
  {
    var p' := Next(p, e);
    if p'.sent != p.sent {
      var m := p'.sent[|p'.sent| - 1];
      assert p'.sent[..|p'.sent| - 1] == p.sent;
      assert m.role == "admin" ==> e == Confirm;
    }
  }

  /** Over any sequence of events, the page never sends more promotions to
      admin than the operator has pressed confirm, and a parked change is
      always a promotion. */
  lemma {:induction false} PromotionsNeedConfirmation(p: PageState, events: seq<Event>)
    requires PendingIsPromotion(p)
    ensures var p' := Replay(p, events);
      && PendingIsPromotion(p')
      && p.sent <= p'.sent
      && PromotionsSent(p'.sent) <= PromotionsSent(p.sent) + ConfirmClicks(events)
    decreases |events|
  {
    if events != [] {
      NextKeepsPromotionDiscipline(p, events[0]);
      PromotionsNeedConfirmation(Next(p, events[0]), events[1..]);
    }
  }

  /** The page as React holds it: the `pendingRoleChange` state and the
      mutations sent through `updateRoleMutation.mutate`. */
  class AdminPageState {
    var pendingRoleChange: Option<PendingRoleChange>
    var sent: seq<RoleMutation>

    function Snapshot(): PageState
      reads this
    {
      PageState(pendingRoleChange, sent)
    }

    constructor ()
      ensures pendingRoleChange == None && sent == []
    {
      pendingRoleChange := None;
      sent := [];
    }

    method Mutate(userId: string, role: string)
      modifies this
      ensures sent == old(sent) + [RoleMutation(userId, role)]
      ensures pendingRoleChange == old(pendingRoleChange)
    {
      sent := sent + [RoleMutation(userId, role)];
    }

    method HandleRoleChange(u: User, newRole: string)
      modifies this
      ensures Snapshot() == RoleChangeStep(old(Snapshot()), u, newRole)
    {
      if newRole == u.role {
        return;
      }
      var isEscalatingToAdmin := newRole == "admin" && u.role != "admin";
      if isEscalatingToAdmin {
        pendingRoleChange := Some(PendingRoleChange(u.id, GetDisplayName(u), u.role, newRole));
      } else {
        Mutate(u.id, newRole);
      }
    }

    method ConfirmRoleChange()
      modifies this
      ensures Snapshot() == ConfirmStep(old(Snapshot()))
    {
      if pendingRoleChange.Some? {
        Mutate(pendingRoleChange.value.userId, pendingRoleChange.value.newRole);
      }
    }

    /** The mutation's `onSuccess`: clear the slot. */
    method OnSuccess()
      modifies this
      ensures pendingRoleChange == None && sent == old(sent)
    {
      pendingRoleChange := None;
    }

    /** The mutation's `onError`: clear the slot. */
    method OnError()
      modifies this
      ensures pendingRoleChange == None && sent == old(sent)
    {
      pendingRoleChange := None;
    }

    /** The dialog's `onOpenChange`: clear the slot. */
    method OnDialogOpenChange()
      modifies this
      ensures pendingRoleChange == None && sent == old(sent)
    {
      pendingRoleChange := None;
    }
  }
}
