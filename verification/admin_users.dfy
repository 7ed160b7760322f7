/** The admin user list: the client-side search and the guard that keeps
    an administrator from removing their own rights. Fetching users and the
    toggle request go to the admin server and are not modelled. */
module AdminUsers {
  import opened Wrappers
  import opened JsText
  import opened Types

  /** `name?.toLowerCase().includes(q)`: a missing name never matches. */
  predicate NameMatches(name: Option<string>, search: string) {
    name.Some? && IncludesIgnoringCase(name.value, search)
  }

  predicate UserMatches(u: User, search: string) {
    IncludesIgnoringCase(u.email, search) || NameMatches(u.firstName, search) || NameMatches(u.lastName, search)
  }

  function MatchingUsers(users: seq<User>, search: string): (r: seq<User>)
    ensures forall u :: u in r <==> u in users && UserMatches(u, search)
  {
    if users == [] then []
    else (if UserMatches(users[0], search) then [users[0]] else []) + MatchingUsers(users[1..], search)
  }

  /** `filtered`: an empty search shows every user, any other keeps the
      matches. */
  function Filtered(users: seq<User>, search: string): seq<User> {
    if search == "" then users else MatchingUsers(users, search)
  }

  /** The matches keep the list's order: the filter distributes over
      concatenation. */
  lemma {:induction false} MatchingConcat(xs: seq<User>, ys: seq<User>, search: string)
    ensures MatchingUsers(xs + ys, search) == MatchingUsers(xs, search) + MatchingUsers(ys, search)
  {
    if xs == [] {
      assert xs + ys == ys;
    } else {
      assert (xs + ys)[0] == xs[0] && (xs + ys)[1..] == xs[1..] + ys;
      MatchingConcat(xs[1..], ys, search);
    }
  }

  /** Searching keeps exactly the users whose e-mail or present first or
      last name contains the text, ignoring case; a user without names is
      found by e-mail only. */
  lemma FilteredEffect(users: seq<User>, search: string)
    ensures search == "" ==> Filtered(users, search) == users
    ensures search != "" ==> forall u :: u in Filtered(users, search) <==> u in users && UserMatches(u, search)
    ensures forall u: User :: u.firstName.None? && u.lastName.None? ==> (UserMatches(u, search) <==> IncludesIgnoringCase(u.email, search))
  {
  }

  /** The guard of `toggleAdmin`: a request is refused when the target is
      the signed-in user and is an administrator. */
  predicate ToggleBlocked(target: User, currentUserId: Option<string>) {
    currentUserId.Some? && target.id == currentUserId.value && target.isAdmin
  }

  /** `toggleAdmin(u)` up to the request: it either alerts and stops, or
      sends the request. */
  method ToggleAdmin(target: User, currentUserId: Option<string>) returns (requestSent: bool, alerted: bool)
    ensures requestSent <==> !ToggleBlocked(target, currentUserId)
    ensures alerted <==> !requestSent
  {
    if currentUserId.Some? && target.id == currentUserId.value && target.isAdmin {
      return false, true;
    }
    return true, false;
  }

  /** The guard blocks only self-demotion: another user, a non-admin self
      and a page without a signed-in user all pass. */
  lemma GuardOnlyBlocksSelfDemotion(target: User, currentUserId: Option<string>)
    ensures currentUserId.None? ==> !ToggleBlocked(target, currentUserId)
    ensures currentUserId.Some? && target.id != currentUserId.value ==> !ToggleBlocked(target, currentUserId)
    ensures !target.isAdmin ==> !ToggleBlocked(target, currentUserId)
    ensures currentUserId == Some(target.id) && target.isAdmin ==> ToggleBlocked(target, currentUserId)
  {
  }
}
