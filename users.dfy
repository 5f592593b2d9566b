// The patron store: a list of users changed by push, merge at an index and
// filter-reassignment; the status setters go through the merge.

module Users {
  import opened Wrappers
  import opened Models
  import Store

  function UserKey(u: User): string { u.id }

  /** The update callback `(u) => ({ ...u, ...patch })`. */
  function PatchUser(patch: UserPatch): User -> User {
    u => MergeUser(u, patch)
  }

  /** The partial record `{ status }`. */
  function StatusPatch(status: UserStatus): (p: UserPatch)
    ensures p.id.None? && p.status == Some(status)
  {
    NoUserChange.(status := Some(status))
  }

  /** The users after `updateUser(id, patch)`. */
  function AfterUpdate(users: seq<User>, id: string, patch: UserPatch): seq<User> {
    Store.Replace(users, UserKey, id, PatchUser(patch))
  }

  /** No user is in the `inactive` state. */
  predicate NoneInactive(users: seq<User>) {
    forall i :: 0 <= i < |users| ==> users[i].status != UserInactive
  }

  class UserService {
    var users: seq<User>

    constructor(initial: seq<User>)
      ensures users == initial
    {
      users := initial;
    }

    method GetUserById(id: string) returns (user: Option<User>)
      ensures user == Store.Lookup(users, UserKey, id)
    {
      user := Store.Lookup(users, UserKey, id);
    }

    /** `addUser`: the fields supplied, under a fresh id. */
    method AddUser(user: User, freshId: string)
      modifies this
      ensures users == old(users) + [user.(id := freshId)]
    {
      users := users + [user.(id := freshId)];
    }

    method UpdateUser(id: string, patch: UserPatch)
      modifies this
      ensures users == AfterUpdate(old(users), id, patch)
    {
      users := Store.Replace(users, UserKey, id, PatchUser(patch));
    }

    method DeleteUser(id: string)
      modifies this
      ensures users == Store.Remove(old(users), UserKey, id)
    {
      users := Store.Remove(users, UserKey, id);
    }

    method SuspendUser(id: string)
      modifies this
      ensures users == AfterUpdate(old(users), id, StatusPatch(UserSuspended))
    {
      UpdateUser(id, StatusPatch(UserSuspended));
    }

    method ActivateUser(id: string)
      modifies this
      ensures users == AfterUpdate(old(users), id, StatusPatch(UserActive))
    {
      UpdateUser(id, StatusPatch(UserActive));
    }
  }

  // ---------------------------------------------------------------- properties

  /**
   * Setting a status changes the status of the first user with the id and nothing else,
   * and leaves the list as it was when no user has the id.
   */
  lemma SetStatusEffect(users: seq<User>, id: string, status: UserStatus)
    ensures var r := AfterUpdate(users, id, StatusPatch(status));
      && |r| == |users|
      && (match Store.Lookup(users, UserKey, id)
          case Some(u) =>
            && r[Store.Position(users, UserKey, id)] == u.(status := status)
            && forall j :: 0 <= j < |users| && j != Store.Position(users, UserKey, id) ==> r[j] == users[j]
          case None => r == users)
  {
  }

  /** Suspending or activating twice is the same as doing it once. */
  lemma {:induction false} SetStatusIdempotent(users: seq<User>, id: string, status: UserStatus)
    ensures AfterUpdate(AfterUpdate(users, id, StatusPatch(status)), id, StatusPatch(status))
         == AfterUpdate(users, id, StatusPatch(status))
  {
    var f := PatchUser(StatusPatch(status));
    forall u ensures UserKey(f(u)) == UserKey(u) && f(f(u)) == f(u) {
      MergeUserLaws(u, StatusPatch(status), StatusPatch(status));
    }
    Store.ReplaceIdempotent(users, UserKey, id, f);
  }

  /** Suspending, activating and deleting never produce an `inactive` user. */
  lemma NeverInactive(users: seq<User>, id: string)
    requires NoneInactive(users)
    ensures NoneInactive(AfterUpdate(users, id, StatusPatch(UserSuspended)))
    ensures NoneInactive(AfterUpdate(users, id, StatusPatch(UserActive)))
    ensures NoneInactive(Store.Remove(users, UserKey, id))
  {
    SetStatusEffect(users, id, UserSuspended);
    SetStatusEffect(users, id, UserActive);
    Store.RemoveKeepsOthers(users, UserKey, id);
    var r := Store.Remove(users, UserKey, id);
    forall j | 0 <= j < |r| ensures r[j].status != UserInactive {
      assert r[j] in users;
    }
  }

  /** The merge of an update that does not carry an id keeps the user found under that id in place. */
  lemma UpdateFindsMerged(users: seq<User>, id: string, patch: UserPatch)
    requires patch.id.None?
    ensures Store.Lookup(AfterUpdate(users, id, patch), UserKey, id) ==
      if Store.Lookup(users, UserKey, id).Some? then Some(MergeUser(Store.Lookup(users, UserKey, id).value, patch)) else None
  {
    Store.LookupAfterReplace(users, UserKey, id, PatchUser(patch));
  }
}
