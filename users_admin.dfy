/**
 * The admin user list: the search/role/status filter chain, the role map
 * and banned set the page keeps, and the role toggle, ban and unban
 * actions that update them.
 */
module UsersAdmin {
  import opened Common
  import opened Text
  import opened Seqs
  import opened Schema
  import opened KeyValue

  /** A row of `profiles`. */
  datatype Profile = Profile(id: string, fullName: string, email: string)

  /** The search test: the lower-cased query occurs in the lower-cased name or e-mail. */
  predicate MatchesQuery(u: Profile, query: string) {
    Contains(ToLower(u.fullName), ToLower(query)) || Contains(ToLower(u.email), ToLower(query))
  }

  /** The role select: "all" or one role. */
  datatype RoleFilter = AnyRole | OnlyRole(role: AppRole)

  /** The status select: "all", "active" or "banned". */
  datatype StatusFilter = AnyStatus | ActiveOnly | BannedOnly

  /** The tests of the three steps of `filterUsers`. */
  function SearchTest(query: string): Profile -> bool {
    (u: Profile) => MatchesQuery(u, query)
  }

  function RoleTest(roles: map<string, AppRole>, r: AppRole): Profile -> bool {
    (u: Profile) => u.id in roles && roles[u.id] == r
  }

  function BannedTest(banned: set<string>): Profile -> bool {
    (u: Profile) => u.id in banned
  }

  function ActiveTest(banned: set<string>): Profile -> bool {
    (u: Profile) => u.id !in banned
  }

  /** The three steps as the source writes them, each applied only when its control is set. */
  function SearchStep(users: seq<Profile>, query: string): seq<Profile> {
    if Trim(query) != "" then Filter(users, SearchTest(query)) else users
  }

  function RoleStep(users: seq<Profile>, roles: map<string, AppRole>, rf: RoleFilter): seq<Profile> {
    match rf
    case AnyRole => users
    case OnlyRole(r) => Filter(users, RoleTest(roles, r))
  }

  function StatusStep(users: seq<Profile>, banned: set<string>, sf: StatusFilter): seq<Profile> {
    match sf
    case BannedOnly => Filter(users, BannedTest(banned))
    case ActiveOnly => Filter(users, ActiveTest(banned))
    case AnyStatus => users
  }

  /** `filterUsers`. */
  function FilterUsers(users: seq<Profile>, query: string, rf: RoleFilter, sf: StatusFilter,
                       roles: map<string, AppRole>, banned: set<string>): seq<Profile> {
    StatusStep(RoleStep(SearchStep(users, query), roles, rf), banned, sf)
  }

  /** The same three tests, each true when its control is off. */
  predicate SearchKeeps(u: Profile, query: string) {
    Trim(query) == "" || MatchesQuery(u, query)
  }

  predicate RoleKeeps(u: Profile, roles: map<string, AppRole>, rf: RoleFilter) {
    rf.AnyRole? || (u.id in roles && roles[u.id] == rf.role)
  }

  predicate StatusKeeps(u: Profile, banned: set<string>, sf: StatusFilter) {
    match sf
    case AnyStatus => true
    case ActiveOnly => u.id !in banned
    case BannedOnly => u.id in banned
  }

  /** The single test the chain amounts to. */
  predicate KeepUser(u: Profile, query: string, rf: RoleFilter, sf: StatusFilter,
                     roles: map<string, AppRole>, banned: set<string>) {
    SearchKeeps(u, query) && RoleKeeps(u, roles, rf) && StatusKeeps(u, banned, sf)
  }

  function KeepTest(query: string, rf: RoleFilter, sf: StatusFilter,
                    roles: map<string, AppRole>, banned: set<string>): Profile -> bool {
    (u: Profile) => KeepUser(u, query, rf, sf, roles, banned)
  }

  lemma SearchStepIsFilter(users: seq<Profile>, query: string)
    ensures SearchStep(users, query) == Filter(users, (u: Profile) => SearchKeeps(u, query))
  {
    if Trim(query) != "" {
      FilterExt(users, SearchTest(query), (u: Profile) => SearchKeeps(u, query));
    } else {
      FilterAll(users, (u: Profile) => SearchKeeps(u, query));
    }
  }

  lemma RoleStepIsFilter(users: seq<Profile>, roles: map<string, AppRole>, rf: RoleFilter)
    ensures RoleStep(users, roles, rf) == Filter(users, (u: Profile) => RoleKeeps(u, roles, rf))
  {
    match rf {
      case AnyRole => FilterAll(users, (u: Profile) => RoleKeeps(u, roles, rf));
      case OnlyRole(r) => FilterExt(users, RoleTest(roles, r), (u: Profile) => RoleKeeps(u, roles, rf));
    }
  }

  lemma StatusStepIsFilter(users: seq<Profile>, banned: set<string>, sf: StatusFilter)
    ensures StatusStep(users, banned, sf) == Filter(users, (u: Profile) => StatusKeeps(u, banned, sf))
  {
    match sf {
      case AnyStatus => FilterAll(users, (u: Profile) => StatusKeeps(u, banned, sf));
      case ActiveOnly => FilterExt(users, ActiveTest(banned), (u: Profile) => StatusKeeps(u, banned, sf));
      case BannedOnly => FilterExt(users, BannedTest(banned), (u: Profile) => StatusKeeps(u, banned, sf));
    }
  }

  /** The chain is one filter on the combined test. */
  lemma FilterUsersIsOneFilter(users: seq<Profile>, query: string, rf: RoleFilter, sf: StatusFilter,
                               roles: map<string, AppRole>, banned: set<string>)
    ensures FilterUsers(users, query, rf, sf, roles, banned) == Filter(users, KeepTest(query, rf, sf, roles, banned))
  {
    var p1 := (u: Profile) => SearchKeeps(u, query);
    var p2 := (u: Profile) => RoleKeeps(u, roles, rf);
    var p3 := (u: Profile) => StatusKeeps(u, banned, sf);
    SearchStepIsFilter(users, query);
    var s1 := SearchStep(users, query);
    RoleStepIsFilter(s1, roles, rf);
    var s2 := RoleStep(s1, roles, rf);
    StatusStepIsFilter(s2, banned, sf);
    FilterFilter3(users, p1, p2, p3, KeepTest(query, rf, sf, roles, banned));
  }

  /** The result is the users that pass every test, in their original order. */
  lemma FilterUsersSubsequence(users: seq<Profile>, query: string, rf: RoleFilter, sf: StatusFilter,
                               roles: map<string, AppRole>, banned: set<string>, u: Profile)
    ensures IsSubsequence(FilterUsers(users, query, rf, sf, roles, banned), users)
    ensures u in FilterUsers(users, query, rf, sf, roles, banned) <==>
              u in users && KeepUser(u, query, rf, sf, roles, banned)
  {
    var keep := KeepTest(query, rf, sf, roles, banned);
    FilterUsersIsOneFilter(users, query, rf, sf, roles, banned);
    FilterIsSubsequence(users, keep);
    FilterMember(users, keep, u);
  }

  /** With a blank search and both selects on "all", everybody is listed in order. */
  lemma NoFilterListsEverybody(users: seq<Profile>, query: string, roles: map<string, AppRole>, banned: set<string>)
    requires Trim(query) == ""
    ensures FilterUsers(users, query, AnyRole, AnyStatus, roles, banned) == users
  {
  }

  /** "banned" and "active" split the list that the other two controls leave. */
  lemma BannedActivePartition(users: seq<Profile>, query: string, rf: RoleFilter,
                              roles: map<string, AppRole>, banned: set<string>)
    ensures |FilterUsers(users, query, rf, BannedOnly, roles, banned)|
            + |FilterUsers(users, query, rf, ActiveOnly, roles, banned)|
            == |FilterUsers(users, query, rf, AnyStatus, roles, banned)|
  {
    FilterPartition(RoleStep(SearchStep(users, query), roles, rf), BannedTest(banned), ActiveTest(banned));
  }

  /** A user without a role row matches neither role. */
  lemma NoRoleMatchesNeither(roles: map<string, AppRole>, u: Profile)
    requires u.id !in roles
    ensures !RoleKeeps(u, roles, OnlyRole(Admin)) && !RoleKeeps(u, roles, OnlyRole(User))
  {
  }

  /** `currentRole === "admin" ? "user" : "admin"`. */
  function NewRole(currentRole: string): (r: AppRole)
    ensures r == User <==> currentRole == "admin"
  {
    if currentRole == "admin" then User else Admin
  }

  /** The role the list shows and passes to the toggle: `roles[id] || "user"`. */
  function ShownRole(roles: map<string, AppRole>, id: string): (r: string)
    ensures r == "admin" <==> id in roles && roles[id] == Admin
    ensures r == "user" <==> !(id in roles && roles[id] == Admin)
  {
    if id in roles then RoleName(roles[id]) else "user"
  }

  /** The toggle turns an admin into a user and anybody else, including a user without a row, into an admin. */
  lemma ToggleFlipsShownRole(roles: map<string, AppRole>, id: string)
    ensures NewRole(ShownRole(roles, id)) == (if id in roles && roles[id] == Admin then User else Admin)
  {
  }

  /** `user_roles.update({ role }).eq("user_id", id)`: only that user's rows change. */
  function UpdateRoleRows(rows: seq<(string, AppRole)>, id: string, role: AppRole): (r: seq<(string, AppRole)>)
    ensures |r| == |rows|
    ensures forall i :: 0 <= i < |rows| ==> r[i] == (if rows[i].0 == id then (id, role) else rows[i])
  {
    seq(|rows|, i requires 0 <= i < |rows| => if rows[i].0 == id then (id, role) else rows[i])
  }

  /**
   * For a user without a role row the update changes no row, while the
   * page's map shows the user as an admin: the change is shown but not
   * stored.
   */
  lemma RoleWithoutRowNotStored(rows: seq<(string, AppRole)>, roles: map<string, AppRole>, id: string)
    requires forall i :: 0 <= i < |rows| ==> rows[i].0 != id
    requires id !in roles
    ensures UpdateRoleRows(rows, id, NewRole(ShownRole(roles, id))) == rows
    ensures roles[id := NewRole(ShownRole(roles, id))][id] == Admin
  {
  }

  /** `new Set(rows.map(b => b.user_id))`. */
  function IdSet(ids: seq<string>): (s: set<string>)
    ensures forall x :: x in s <==> x in ids
  {
    set i | 0 <= i < |ids| :: ids[i]
  }

  /**
   * The page's state. `filtered` is the list on screen: an effect recomputes
   * it after a render in which `users`, the search text or one of the two
   * selects changed, and only then.
   */
  class UsersPage {
    var users: seq<Profile>
    var roles: map<string, AppRole>
    var banned: set<string>
    var banReason: string
    var searchQuery: string
    var roleFilter: RoleFilter
    var statusFilter: StatusFilter
    var filtered: seq<Profile>

    /** The list the current state would give if the effect ran now. */
    function Current(): seq<Profile>
      reads this
    {
      FilterUsers(users, searchQuery, roleFilter, statusFilter, roles, banned)
    }

    /** The list on screen is up to date. */
    predicate InSync()
      reads this
    {
      filtered == Current()
    }

    /** The first render; the mount effect filters the empty list. */
    constructor ()
      ensures users == [] && roles == map[] && banned == {} && banReason == ""
      ensures searchQuery == "" && roleFilter == AnyRole && statusFilter == AnyStatus
      ensures filtered == [] && InSync()
    {
      users := [];
      roles := map[];
      banned := {};
      banReason := "";
      searchQuery := "";
      roleFilter := AnyRole;
      statusFilter := AnyStatus;
      filtered := [];
    }

    /** The search box; the effect refilters. */
    method SetSearchQuery(text: string)
      modifies this
      ensures searchQuery == text && filtered == FilterUsers(users, text, roleFilter, statusFilter, roles, banned)
      ensures users == old(users) && roles == old(roles) && banned == old(banned) && banReason == old(banReason)
      ensures roleFilter == old(roleFilter) && statusFilter == old(statusFilter)
      ensures InSync()
    {
      searchQuery := text;
      Refilter();
    }

    /** The role select; the effect refilters. */
    method SetRoleFilter(rf: RoleFilter)
      modifies this
      ensures roleFilter == rf && filtered == FilterUsers(users, searchQuery, rf, statusFilter, roles, banned)
      ensures users == old(users) && roles == old(roles) && banned == old(banned) && banReason == old(banReason)
      ensures searchQuery == old(searchQuery) && statusFilter == old(statusFilter)
      ensures InSync()
    {
      roleFilter := rf;
      Refilter();
    }

    /** The status select; the effect refilters. */
    method SetStatusFilter(sf: StatusFilter)
      modifies this
      ensures statusFilter == sf && filtered == FilterUsers(users, searchQuery, roleFilter, sf, roles, banned)
      ensures users == old(users) && roles == old(roles) && banned == old(banned) && banReason == old(banReason)
      ensures searchQuery == old(searchQuery) && roleFilter == old(roleFilter)
      ensures InSync()
    {
      statusFilter := sf;
      Refilter();
    }

    /** The clear button: all three controls back to their defaults, and everybody is listed. */
    method ClearFilters()
      modifies this
      ensures searchQuery == "" && roleFilter == AnyRole && statusFilter == AnyStatus
      ensures users == old(users) && roles == old(roles) && banned == old(banned) && banReason == old(banReason)
      ensures filtered == users && InSync()
    {
      searchQuery, roleFilter, statusFilter := "", AnyRole, AnyStatus;
      Refilter();
      NoFilterListsEverybody(users, "", roles, banned);
    }

    /**
     * `fetchUsers`: each query that returned data replaces its part of the
     * state; the role rows fill the map in a loop, a later row for the same
     * user overwriting an earlier one.
     */
    method FetchUsers(profiles: Option<seq<Profile>>, userRoles: Option<seq<(string, AppRole)>>,
                      bannedIds: Option<seq<string>>)
      modifies this
      ensures users == if profiles.Some? then profiles.value else old(users)
      ensures roles == if userRoles.Some? then LastWins(userRoles.value) else old(roles)
      ensures banned == if bannedIds.Some? then IdSet(bannedIds.value) else old(banned)
      ensures banReason == old(banReason)
      ensures searchQuery == old(searchQuery) && roleFilter == old(roleFilter) && statusFilter == old(statusFilter)
      ensures filtered == if profiles.Some? then Current() else old(filtered)
      ensures profiles.Some? ==> InSync()
    {
      var newRoles := roles;
      if userRoles.Some? {
        newRoles := BuildMap(userRoles.value);
      }
      var newUsers := if profiles.Some? then profiles.value else users;
      var newBanned := if bannedIds.Some? then IdSet(bannedIds.value) else banned;
      users, roles, banned := newUsers, newRoles, newBanned;
      if profiles.Some? {
        Refilter();
      }
    }

    /** The filter effect: the list on screen becomes the filter of the current state. */
    method Refilter()
      modifies this
      ensures users == old(users) && roles == old(roles) && banned == old(banned) && banReason == old(banReason)
      ensures searchQuery == old(searchQuery) && roleFilter == old(roleFilter) && statusFilter == old(statusFilter)
      ensures InSync()
    {
      filtered := Current();
    }

    /** The reason text box. */
    method SetBanReason(text: string)
      modifies this
      ensures banReason == text
      ensures users == old(users) && roles == old(roles) && banned == old(banned)
      ensures searchQuery == old(searchQuery) && roleFilter == old(roleFilter) && statusFilter == old(statusFilter)
      ensures filtered == old(filtered)
    {
      banReason := text;
    }

    /**
     * `toggleRole`: after a successful update only that user's entry
     * changes. `roles` is not a dependency of the filter effect, so the list
     * on screen is not refiltered.
     */
    method ToggleRole(userId: string, currentRole: string, updateOk: bool) returns (sent: AppRole)
      modifies this
      ensures sent == NewRole(currentRole)
      ensures roles == if updateOk then old(roles)[userId := sent] else old(roles)
      ensures users == old(users) && banned == old(banned) && banReason == old(banReason)
      ensures searchQuery == old(searchQuery) && roleFilter == old(roleFilter) && statusFilter == old(statusFilter)
      ensures filtered == old(filtered)
    {
      sent := NewRole(currentRole);
      if updateOk {
        roles := roles[userId := sent];
      }
    }

    /**
     * `banUser`: a blank reason is refused before any write; otherwise the
     * ban row is inserted and, on success, the user joins the banned set and
     * the reason is cleared. The banned set is not a dependency of the
     * filter effect either.
     */
    method BanUser(userId: string, insertOk: bool) returns (inserted: Option<(string, string)>)
      modifies this
      ensures inserted.Some? <==> Trim(old(banReason)) != ""
      ensures inserted.Some? ==> inserted.value == (userId, old(banReason))
      ensures banned == if inserted.Some? && insertOk then old(banned) + {userId} else old(banned)
      ensures banReason == if inserted.Some? && insertOk then "" else old(banReason)
      ensures users == old(users) && roles == old(roles)
      ensures searchQuery == old(searchQuery) && roleFilter == old(roleFilter) && statusFilter == old(statusFilter)
      ensures filtered == old(filtered)
    {
      if Trim(banReason) == "" {
        return None;
      }
      inserted := Some((userId, banReason));
      if insertOk {
        banned := banned + {userId};
        banReason := "";
      }
    }

    /** `unbanUser`: after a successful delete only that user leaves the banned set. */
    method UnbanUser(userId: string, deleteOk: bool)
      modifies this
      ensures banned == if deleteOk then old(banned) - {userId} else old(banned)
      ensures users == old(users) && roles == old(roles) && banReason == old(banReason)
      ensures searchQuery == old(searchQuery) && roleFilter == old(roleFilter) && statusFilter == old(statusFilter)
      ensures filtered == old(filtered)
    {
      if deleteOk {
        banned := banned - {userId};
      }
    }
  }

  /** Adding a user who was not banned and removing them again gives the set back. */
  lemma BanUnbanRestores(banned: set<string>, id: string)
    requires id !in banned
    ensures (banned + {id}) - {id} == banned
  {
  }

  /**
   * The two handlers in sequence, both writes succeeding: banning a user who
   * was not banned and then unbanning them restores the banned set, clears
   * the reason, and leaves the users, roles, controls and the list on
   * screen as they were.
   */
  method BanThenUnban(page: UsersPage, id: string) returns (inserted: Option<(string, string)>)
    requires id !in page.banned && Trim(page.banReason) != ""
    modifies page
    ensures inserted == Some((id, old(page.banReason)))
    ensures page.banned == old(page.banned) && page.banReason == ""
    ensures page.users == old(page.users) && page.roles == old(page.roles) && page.filtered == old(page.filtered)
    ensures page.searchQuery == old(page.searchQuery) && page.roleFilter == old(page.roleFilter)
            && page.statusFilter == old(page.statusFilter)
    ensures old(page.InSync()) ==> page.InSync()
  {
    ghost var before := page.banned;
    inserted := page.BanUser(id, true);
    page.UnbanUser(id, true);
    BanUnbanRestores(before, id);
  }

  /**
   * Under "active", a user who was listed stays listed after being banned,
   * although the list the page would now compute no longer holds them.
   */
  lemma BannedUserStaysListed(users: seq<Profile>, query: string, rf: RoleFilter,
                              roles: map<string, AppRole>, banned: set<string>, u: Profile)
    requires u in FilterUsers(users, query, rf, ActiveOnly, roles, banned)
    ensures u !in FilterUsers(users, query, rf, ActiveOnly, roles, banned + {u.id})
  {
    FilterUsersSubsequence(users, query, rf, ActiveOnly, roles, banned + {u.id}, u);
  }

  /** Under "admin", a listed admin stays listed after being demoted. */
  lemma DemotedAdminStaysListed(users: seq<Profile>, query: string, sf: StatusFilter,
                                roles: map<string, AppRole>, banned: set<string>, u: Profile)
    requires u in FilterUsers(users, query, OnlyRole(Admin), sf, roles, banned)
    ensures u !in FilterUsers(users, query, OnlyRole(Admin), sf, roles[u.id := User], banned)
  {
    FilterUsersSubsequence(users, query, OnlyRole(Admin), sf, roles[u.id := User], banned, u);
  }

  /**
   * The two handlers in sequence on a page in sync: after a successful ban
   * under "active", the banned user is still on screen and the page is out
   * of sync.
   */
  method BanWhileActiveFiltered(page: UsersPage, u: Profile, reason: string) returns (inserted: Option<(string, string)>)
    requires page.InSync() && page.statusFilter == ActiveOnly && u in page.filtered
    requires Trim(reason) != ""
    modifies page
    ensures inserted == Some((u.id, reason))
    ensures u in page.filtered && u.id in page.banned
    ensures !page.InSync()
  {
    page.SetBanReason(reason);
    inserted := page.BanUser(u.id, true);
    BannedUserStaysListed(page.users, page.searchQuery, page.roleFilter, page.roles, old(page.banned), u);
  }
}
