/** The first shell's user administration screen: search and role filter over
    the profile list, role counts, the per-row action and the role change. */
module UserManagement {
  import opened Wrappers
  import opened Seqs
  import opened Text
  import opened Accounts

  /** The role drop-down: every role, or a single one. */
  datatype RoleFilter = AllRoles | OnlyRole(role: Role)

  /** A user matches when the lower-cased e-mail contains the lower-cased
      search term and the role filter admits the user's role. */
  predicate Matches(u: Profile, term: string, filter: RoleFilter)
  {
    Contains(ToLowerAscii(u.email), ToLowerAscii(term)) && (filter.AllRoles? || u.role == filter.role)
  }

  /** `filteredUsers`: the matching users, in the order of the list. */
  function FilteredUsers(users: seq<Profile>, term: string, filter: RoleFilter): (r: seq<Profile>)
    ensures forall u :: u in r <==> u in users && Matches(u, term, filter)
    ensures SubsequenceOf(r, users)
    ensures term == "" && filter == AllRoles ==> r == users
  {
    EmptySearchMatchesAll(users, term, filter);
    FilterSubsequence((u: Profile) => Matches(u, term, filter), users);
    Filter((u: Profile) => Matches(u, term, filter), users)
  }

  /** The empty search term with every role admitted matches every user. */
  lemma EmptySearchMatchesAll(users: seq<Profile>, term: string, filter: RoleFilter)
    ensures term == "" && filter == AllRoles ==> forall i :: 0 <= i < |users| ==> Matches(users[i], term, filter)
  {
    if term == "" && filter == AllRoles {
      forall i | 0 <= i < |users| ensures Matches(users[i], term, filter) {
        ContainsEmpty(ToLowerAscii(users[i].email));
        assert ToLowerAscii(term) == "";
      }
    }
  }

  predicate IsAdminUser(u: Profile)
  {
    u.role == Admin
  }

  predicate IsPersonelUser(u: Profile)
  {
    u.role == Personel
  }

  /** The administrator tile: `users.filter(u => u.role === 'admin').length`. */
  function AdminCount(users: seq<Profile>): (n: nat)
    ensures n <= |users|
    ensures n == 0 <==> forall u :: u in users ==> u.role != Admin
  {
    FilterEmpty(IsAdminUser, users);
    |Filter(IsAdminUser, users)|
  }

  /** The staff tile. */
  function PersonelCount(users: seq<Profile>): (n: nat)
    ensures n <= |users|
    ensures n == 0 <==> forall u :: u in users ==> u.role != Personel
  {
    FilterEmpty(IsPersonelUser, users);
    |Filter(IsPersonelUser, users)|
  }

  /** Every user has exactly one of the two roles, so the two tiles add up to the total tile. */
  lemma RoleCountsSum(users: seq<Profile>)
    ensures AdminCount(users) + PersonelCount(users) == |users|
  {
    FilterComplementLength(IsAdminUser, IsPersonelUser, users);
  }

  /** What the action cell of a row shows. */
  datatype RowAction = OwnAccount | Updating | ChangeRoleTo(target: Role)

  /** The caller's own row reads "own account"; the row being updated shows a
      disabled button; any other row offers the opposite role. */
  function RowActionFor(u: Profile, me: Profile, updating: Option<UserId>): (a: RowAction)
    ensures a == OwnAccount <==> u.id == me.id
    ensures a.ChangeRoleTo? ==> u.id != me.id && a.target != u.role
    ensures u.id != me.id && updating != Some(u.id) ==> a == ChangeRoleTo(ToggledRole(u.role))
  {
    if u.id == me.id then OwnAccount
    else if updating == Some(u.id) then Updating
    else ChangeRoleTo(ToggledRole(u.role))
  }

  /** What the screen renders. */
  datatype Screen = AccessDenied | Spinner | UserTable(shown: seq<Profile>)

  /** The admin check comes first: anyone else gets the access-denied view and no list. */
  function ScreenFor(me: Option<Profile>, loading: bool, users: seq<Profile>, term: string, filter: RoleFilter): (s: Screen)
    ensures s == AccessDenied <==> !IsAdmin(me)
    ensures s == Spinner <==> IsAdmin(me) && loading
    ensures s.UserTable? ==> s.shown == FilteredUsers(users, term, filter)
  {
    if !IsAdmin(me) then AccessDenied
    else if loading then Spinner
    else UserTable(FilteredUsers(users, term, filter))
  }

  class UserManagementPage {
    const me: Option<Profile>
    const table: ProfileTable
    var users: seq<Profile>
    var loading: bool
    var updating: Option<UserId>
    var searchTerm: string
    var roleFilter: RoleFilter

    constructor (me: Option<Profile>, table: ProfileTable)
      ensures this.me == me && this.table == table
      ensures users == [] && loading && updating == None && searchTerm == "" && roleFilter == AllRoles
    {
      this.me := me;
      this.table := table;
      users := [];
      loading := true;
      updating := None;
      searchTerm := "";
      roleFilter := AllRoles;
    }

    /** `fetchUsers`: every profile, newest first; an error keeps the list; loading ends. */
    method FetchUsers(fails: bool)
      modifies this
      ensures fails ==> users == old(users)
      ensures !fails ==> multiset(users) == multiset(table.rows) && SortedDesc(users, ProfileCreatedAt)
      ensures !loading
      ensures updating == old(updating) && searchTerm == old(searchTerm) && roleFilter == old(roleFilter)
    {
      var res := table.SelectNewestFirst(fails);
      if res.Some? {
        users := res.value;
      }
      loading := false;
    }

    /** `updateUserRole`: after the confirmation, the rows with that id get the
        new role and a new `updated_at` and the list is re-read; a failed update
        raises an alert. Declining changes nothing. */
    method UpdateUserRole(userId: UserId, newRole: Role, confirmed: bool, now: int,
                          updateFails: bool, fetchFails: bool)
      returns (alerted: bool)
      modifies this, table
      ensures !confirmed ==>
        table.rows == old(table.rows) && users == old(users) && updating == old(updating) &&
        loading == old(loading) && !alerted
      ensures confirmed ==> updating == None && alerted == updateFails
      ensures |table.rows| == |old(table.rows)|
      ensures forall i :: 0 <= i < |table.rows| ==>
        table.rows[i] == if confirmed && !updateFails && old(table.rows)[i].id == userId
                         then old(table.rows)[i].(role := newRole, updatedAt := now)
                         else old(table.rows)[i]
      ensures confirmed && !updateFails && !fetchFails ==>
        multiset(users) == multiset(table.rows) && SortedDesc(users, ProfileCreatedAt) && !loading
      ensures confirmed && (updateFails || fetchFails) ==> users == old(users)
      ensures searchTerm == old(searchTerm) && roleFilter == old(roleFilter)
    {
      if !confirmed {
        return false;
      }
      updating := Some(userId);
      var ok := table.SetRoleStamped(userId, newRole, now, updateFails);
      if ok {
        FetchUsers(fetchFails);
      }
      alerted := !ok;
      updating := None;
    }
  }
}
