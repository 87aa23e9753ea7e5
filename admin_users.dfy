/**
 * The admin users page: changing a user's role, deleting a user, the search
 * over email and name, the role the dialog starts with, and the rule that
 * hides the controls on the admin's own row.
 */
module AdminUsers {
  import opened Common
  import AdminStore

  /** The page state the handlers change. */
  datatype UsersPage = UsersPage(
    users: seq<UserRecord>, selected: Option<UserRecord>, newRole: Role,
    roleDialogOpen: bool, deleteDialogOpen: bool, isUpdating: bool)

  // ---------------------------------------------------------------------------
  // Role change

  /** `{ ...u, role: newRole }` */
  function RolePatch(role: Role): AdminStore.UserPatch {
    AdminStore.NoChanges.(role := Some(Some(role)))
  }

  /** `users.map(u => u.id === id ? { ...u, role } : u)` */
  function SetRole(users: seq<UserRecord>, id: string, role: Role): (r: seq<UserRecord>)
    ensures |r| == |users|
    ensures forall i :: 0 <= i < |users| && users[i].id == id ==> r[i] == users[i].(role := Some(role))
    ensures forall i :: 0 <= i < |users| && users[i].id != id ==> r[i] == users[i]
  {
    AdminStore.MergeById(users, id, RolePatch(role))
  }

  /** A role change touches nothing but roles: every id, email and plan stays,
      and setting the same role again changes nothing more. */
  lemma SetRoleKeepsIdentity(users: seq<UserRecord>, id: string, role: Role)
    ensures forall i :: 0 <= i < |users| ==>
      SetRole(users, id, role)[i].(role := users[i].role) == users[i]
    ensures SetRole(SetRole(users, id, role), id, role) == SetRole(users, id, role)
  {
    var once := SetRole(users, id, role);
    var twice := SetRole(once, id, role);
    assert forall i :: 0 <= i < |users| ==> twice[i] == once[i];
  }

  /** `handleRoleChange`: nothing without a selected user; otherwise the
      selected user's role is replaced only when the update succeeded, which
      also closes the dialog. */
  function HandleRoleChange(p: UsersPage, updated: bool): (r: UsersPage)
    ensures p.selected.None? ==> r == p
    ensures p.selected.Some? && updated ==>
      r == p.(users := SetRole(p.users, p.selected.value.id, p.newRole), roleDialogOpen := false, isUpdating := false)
    ensures p.selected.Some? && !updated ==> r == p.(isUpdating := false)
  {
    match p.selected
    case None => p
    case Some(u) =>
      if updated then p.(users := SetRole(p.users, u.id, p.newRole), roleDialogOpen := false, isUpdating := false)
      else p.(isUpdating := false)
  }

  // ---------------------------------------------------------------------------
  // Delete

  /** `handleDeleteUser`: nothing without a selected user; otherwise the
      selected id leaves the list only when the delete succeeded, which also
      closes the dialog. */
  function HandleDeleteUser(p: UsersPage, deleted: bool): (r: UsersPage)
    ensures p.selected.None? ==> r == p
    ensures p.selected.Some? && deleted ==>
      r == p.(users := AdminStore.RemoveById(p.users, p.selected.value.id), deleteDialogOpen := false, isUpdating := false)
    ensures p.selected.Some? && !deleted ==> r == p.(isUpdating := false)
  {
    match p.selected
    case None => p
    case Some(u) =>
      if deleted then p.(users := AdminStore.RemoveById(p.users, u.id), deleteDialogOpen := false, isUpdating := false)
      else p.(isUpdating := false)
  }

  /** After a successful delete no user has the deleted id, the others keep
      their order, and a user list without that id is left as it was. */
  lemma DeleteRemovesOnlySelected(p: UsersPage)
    requires p.selected.Some?
    ensures forall u :: u in HandleDeleteUser(p, true).users <==> u in p.users && u.id != p.selected.value.id
    ensures IsSubsequence(HandleDeleteUser(p, true).users, p.users)
    ensures (forall u :: u in p.users ==> u.id != p.selected.value.id) ==> HandleDeleteUser(p, true).users == p.users
  {
    if forall u :: u in p.users ==> u.id != p.selected.value.id {
      AdminStore.RemoveAbsentId(p.users, p.selected.value.id);
    }
  }

  // ---------------------------------------------------------------------------
  // Search

  /** The lower-cased email, or the lower-cased name when there is one,
      contains the lower-cased query. */
  predicate UserMatches(u: UserRecord, query: string) {
    var q := Lower(query);
    Includes(Lower(u.email), q) || (u.name.Some? && Includes(Lower(u.name.value), q))
  }

  /** `filteredUsers` */
  function FilteredUsers(users: seq<UserRecord>, query: string): (r: seq<UserRecord>)
    ensures forall u :: u in r <==> u in users && UserMatches(u, query)
    ensures forall u :: multiset(r)[u] == if UserMatches(u, query) then multiset(users)[u] else 0
    ensures IsSubsequence(r, users)
  {
    FilterCounts(users, (u: UserRecord) => UserMatches(u, query));
    Filter(users, (u: UserRecord) => UserMatches(u, query))
  }

  /** An empty search box shows every user in order. */
  lemma EmptySearchKeepsAll(users: seq<UserRecord>)
    ensures FilteredUsers(users, "") == users
  {
    forall u | u in users ensures UserMatches(u, "") {
      IncludesEmpty(Lower(u.email));
    }
    FilterKeepsAll(users, (u: UserRecord) => UserMatches(u, ""));
  }

  // ---------------------------------------------------------------------------
  // Rows and dialogs

  /** `user.role || "USER"` */
  function DefaultRole(u: UserRecord): (r: Role)
    ensures u.role.Some? ==> r == u.role.value
    ensures u.role.None? ==> r == USER
  {
    u.role.GetOr(USER)
  }

  /** The "Change Role" button selects the row's user and opens the dialog at
      that user's role. */
  function OpenRoleDialog(p: UsersPage, u: UserRecord): UsersPage {
    p.(selected := Some(u), newRole := DefaultRole(u), roleDialogOpen := true)
  }

  /** The delete button selects the row's user and opens the confirmation. */
  function OpenDeleteDialog(p: UsersPage, u: UserRecord): UsersPage {
    p.(selected := Some(u), deleteDialogOpen := true)
  }

  /** `user.id !== currentUser?.id`: the role and delete buttons. */
  predicate ShowsControls(current: Option<UserRecord>, row: UserRecord) {
    current.None? || row.id != current.value.id
  }

  /** `user.id === currentUser?.id`: the "You" badge. */
  predicate ShowsYouBadge(current: Option<UserRecord>, row: UserRecord) {
    current.Some? && row.id == current.value.id
  }

  /** Every row shows exactly one of the controls and the badge, and the
      signed-in user's own row shows the badge, so no admin can change or
      delete their own account from this page. */
  lemma SelfRowHasNoControls(current: Option<UserRecord>, row: UserRecord)
    ensures ShowsControls(current, row) != ShowsYouBadge(current, row)
    ensures current.Some? && row.id == current.value.id ==> !ShowsControls(current, row)
    ensures current.Some? && ShowsControls(current, row) ==> row.id != current.value.id
  {
  }

  /** A role change opened from a row never targets the signed-in user. */
  lemma RoleChangeSparesSelf(p: UsersPage, current: Option<UserRecord>, row: UserRecord, updated: bool)
    requires ShowsControls(current, row) && current.Some?
    ensures forall i :: 0 <= i < |p.users| && p.users[i].id == current.value.id ==>
      HandleRoleChange(OpenRoleDialog(p, row), updated).users[i] == p.users[i]
  {
  }

  /** A delete opened from a row never removes the signed-in user. */
  lemma DeleteSparesSelf(p: UsersPage, current: Option<UserRecord>, row: UserRecord, deleted: bool)
    requires ShowsControls(current, row) && current.Some?
    ensures forall u :: u in p.users && u.id == current.value.id ==> u in HandleDeleteUser(OpenDeleteDialog(p, row), deleted).users
  {
  }
}
