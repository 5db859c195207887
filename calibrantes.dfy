/**
 * The coach's client list (src/pages/admin/Calibrantes.jsx): the search over names and surnames,
 * and what each client card shows when a profile field is missing.
 */
module Calibrantes {
  import opened Wrappers
  import opened Text
  import opened Lists

  /** The intake profile; missing text is empty. */
  datatype Profile = Profile(objectives: seq<string>, limitations: seq<string>, status: string)

  /** A client as the list receives it. */
  datatype ClientUser = ClientUser(name: string, surname: string, email: string, profile: Option<Profile>)

  /** The search test: the lower-cased name or surname includes the lower-cased term. */
  predicate MatchesSearch(u: ClientUser, term: string) {
    Contains(Lower(u.name), Lower(term)) || Contains(Lower(u.surname), Lower(term))
  }

  /** `filteredUsers`. */
  function FilterUsers(users: seq<ClientUser>, term: string): seq<ClientUser> {
    Filter(users, (u: ClientUser) => MatchesSearch(u, term))
  }

  /** The shown clients keep the list's order, and a client is shown exactly when the name or surname matches. */
  lemma FilterUsersSpec(users: seq<ClientUser>, term: string, u: ClientUser)
    ensures IsSubseq(FilterUsers(users, term), users)
    ensures u in FilterUsers(users, term) <==> u in users && MatchesSearch(u, term)
  {
    FilterIsSubseq(users, (v: ClientUser) => MatchesSearch(v, term));
    FilterMembership(users, (v: ClientUser) => MatchesSearch(v, term), u);
  }

  /** An empty search shows every client. */
  lemma EmptySearchShowsAll(users: seq<ClientUser>)
    ensures FilterUsers(users, []) == users
  {
    var p := (v: ClientUser) => MatchesSearch(v, []);
    forall k | 0 <= k < |users| ensures p(users[k]) {
      ContainsEmpty(Lower(users[k].name));
    }
    FilterKeepsAll(users, p);
  }

  /** Searching for a client's exact name, in any case, finds that client. */
  lemma SearchByNameFinds(users: seq<ClientUser>, u: ClientUser)
    requires u in users
    ensures u in FilterUsers(users, u.name)
  {
    ContainsSelf(Lower(u.name));
    FilterUsersSpec(users, u.name, u);
  }

  /** The status badge: the profile's status, or "Activo". */
  function StatusLabel(u: ClientUser): (s: string)
    ensures u.profile.Some? && u.profile.value.status != [] ==> s == u.profile.value.status
    ensures u.profile.None? || u.profile.value.status == [] ==> s == "Activo"
  {
    if u.profile.Some? && u.profile.value.status != [] then u.profile.value.status else "Activo"
  }

  /** The objective line: the first objective, or "Sin objetivo definido". */
  function ObjectiveLabel(u: ClientUser): (s: string)
    ensures u.profile.Some? && u.profile.value.objectives != [] && u.profile.value.objectives[0] != [] ==>
      s == u.profile.value.objectives[0]
    ensures u.profile.None? || u.profile.value.objectives == [] || u.profile.value.objectives[0] == [] ==>
      s == "Sin objetivo definido"
  {
    if u.profile.Some? && u.profile.value.objectives != [] && u.profile.value.objectives[0] != [] then
      u.profile.value.objectives[0]
    else "Sin objetivo definido"
  }

  /** Whether the card shows the pain alert: the client reported at least one limitation. */
  predicate PainAlert(u: ClientUser)
    ensures u.profile.None? ==> !PainAlert(u)
    ensures u.profile.Some? ==> (PainAlert(u) <==> u.profile.value.limitations != [])
  {
    u.profile.Some? && |u.profile.value.limitations| > 0
  }
}
