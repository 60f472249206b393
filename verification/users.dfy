/** The user management page: the search over the loaded profiles, the
    role badge, and the role change, which offers only `admin` and `staff`
    and replaces the role of the matching profile in the local list. */
module Users {

  import opened Types
  import opened Seqs
  import opened Text

  /** A row of the `users` table as the page reads it. The table may hold
      any of the four roles, although the page's own type names two. */
  datatype UserProfile = UserProfile(id: string, email: Option<string>, role: Role,
                                     fullName: Option<string>, createdAt: Timestamp)

  /** The roles the page's dropdown offers. */
  type AssignableRole = r: Role | r == Admin || r == Staff witness Staff

  /** `field?.toLowerCase().includes(term.toLowerCase())`: an absent field
      never matches, whatever the term. */
  predicate FieldMatches(field: Option<string>, term: string, lower: string -> string) {
    field.Some? && Contains(lower(field.value), lower(term))
  }

  predicate MatchesSearch(u: UserProfile, term: string, lower: string -> string) {
    FieldMatches(u.email, term, lower) || FieldMatches(u.fullName, term, lower)
  }

  function SearchFilter(term: string, lower: string -> string): UserProfile -> bool {
    (u: UserProfile) => MatchesSearch(u, term, lower)
  }

  /** `filteredUsers`: the profiles whose e-mail or full name contains the
      term, in their loaded order. The filter runs even for an empty term. */
  function FilteredUsers(users: seq<UserProfile>, term: string, lower: string -> string): (r: seq<UserProfile>)
    ensures forall u :: u in r <==> u in users && MatchesSearch(u, term, lower)
    ensures IsSubsequence(r, users)
  {
    FilterIsSubsequence(users, SearchFilter(term, lower));
    Filter(users, SearchFilter(term, lower))
  }

  /** With an empty term every profile with an e-mail or a full name is
      listed, and a profile with neither is hidden. */
  lemma EmptySearchHidesNamelessProfiles(users: seq<UserProfile>, lower: string -> string, u: UserProfile)
    requires u in users
    requires lower("") == ""
    ensures u in FilteredUsers(users, "", lower) <==> u.email.Some? || u.fullName.Some?
  {
    if u.email.Some? {
      ContainsEmpty(lower(u.email.value));
    }
    if u.fullName.Some? {
      ContainsEmpty(lower(u.fullName.value));
    }
  }

  /** The role badge: "Admin" for an admin and "Nhân viên" for every other
      role, the two manager roles included. */
  function RoleBadge(r: Role): (s: string)
    ensures s == "Admin" <==> r == Admin
    ensures r != Admin ==> s == "Nhân viên"
  {
    if r == Admin then "Admin" else "Nhân viên"
  }

  /** The local update after a successful write: the profile with the id
      gets the new role, every other profile is left as it was. */
  function ChangeRole(users: seq<UserProfile>, userId: string, newRole: AssignableRole): (r: seq<UserProfile>)
    ensures |r| == |users|
    ensures forall i :: 0 <= i < |users| && users[i].id == userId ==> r[i] == users[i].(role := newRole)
    ensures forall i :: 0 <= i < |users| && users[i].id != userId ==> r[i] == users[i]
  {
    if |users| == 0 then []
    else
      assert forall i :: 1 <= i < |users| ==> users[i] == users[1..][i - 1];
      [if users[0].id == userId then users[0].(role := newRole) else users[0]]
        + ChangeRole(users[1..], userId, newRole)
  }

  /** `handleRoleChange`: a failed write leaves the list as it was. */
  function HandleRoleChange(users: seq<UserProfile>, userId: string, newRole: AssignableRole,
                            writeOk: bool): (r: seq<UserProfile>)
    ensures !writeOk ==> r == users
    ensures writeOk ==> r == ChangeRole(users, userId, newRole)
  {
    if writeOk then ChangeRole(users, userId, newRole) else users
  }

  /** After a change the profile shows the new role's badge, and changing
      to the same role again changes nothing. */
  lemma ChangeRoleSettles(users: seq<UserProfile>, userId: string, newRole: AssignableRole)
    ensures forall i :: 0 <= i < |users| && users[i].id == userId ==>
      RoleBadge(ChangeRole(users, userId, newRole)[i].role) == RoleBadge(newRole)
    ensures ChangeRole(ChangeRole(users, userId, newRole), userId, newRole) == ChangeRole(users, userId, newRole)
  {}

  /** Through this page a manager can be turned into an admin or staff, but
      nobody can be made a manager: every role the page writes is one of
      the two. */
  lemma PageNeverAssignsManagers(users: seq<UserProfile>, userId: string, newRole: AssignableRole, i: nat)
    requires i < |users| && users[i].id == userId
    ensures ChangeRole(users, userId, newRole)[i].role !in {ManagerViet, ManagerKorea}
  {}
}
