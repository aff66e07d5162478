/**
 * The sign-in context: the current user, entering under a name, leaving, and
 * restoring the stored user when the application starts.
 */
module Auth {
  import opened Wrappers
  import opened Text
  import opened Records
  import opened Storage

  /**
   * The user `enter(name)` creates at time `now`: none for an empty or
   * all-whitespace name, otherwise one named by the trimmed input.
   */
  function EnteredUser(name: string, now: int): (r: Option<User>)
    ensures r.None? <==> IsBlank(name)
    ensures r.Some? ==> r.value.name == Trim(name) && r.value.createdAt == now
    ensures r.Some? ==> r.value.name != "" && !IsSpace(r.value.name[0]) && !IsSpace(r.value.name[|r.value.name| - 1])
  {
    if IsBlank(name) then None else Some(User(Trim(name), now))
  }

  /** Entering again under the name a user was given keeps that name. */
  lemma EnterStoredName(name: string, now: int, later: int)
    requires EnteredUser(name, now).Some?
    ensures EnteredUser(EnteredUser(name, now).value.name, later) == Some(User(Trim(name), later))
  {
    TrimIdempotent(name);
  }

  /** `AuthProvider`'s state over the browser store. */
  class AuthProvider {
    var user: Option<User>
    const store: RecordStore

    constructor (store: RecordStore)
      ensures user == None && this.store == store
    {
      user := None;
      this.store := store;
    }

    /** `isAuthenticated: !!user`. */
    predicate IsAuthenticated()
      reads this
    {
      user.Some?
    }

    /** The mount effect: a stored user becomes the current user; with none stored nothing changes. */
    method Mount() returns (failure: Option<StoreError>)
      modifies this
      ensures store.GetUser().Success? && store.GetUser().value.Some? ==> user == store.GetUser().value && failure == None
      ensures store.GetUser().Success? && store.GetUser().value.None? ==> user == old(user) && failure == None
      ensures store.GetUser().Failure? ==> user == old(user) && failure == Some(store.GetUser().error)
    {
      var read := store.GetUser();
      match read
      case Success(saved) =>
        if saved.Some? {
          user := saved;
        }
        failure := None;
      case Failure(e) =>
        failure := Some(e);
    }

    /** `enter(name)` at time `now`: false and no change for a blank name; otherwise the user is stored and set. */
    method Enter(name: string, now: int) returns (ok: bool)
      modifies this, store
      ensures ok <==> !IsBlank(name)
      ensures !ok ==> user == old(user) && store.entries == old(store.entries)
      ensures ok ==> user == EnteredUser(name, now) && IsAuthenticated()
      ensures ok ==> store.entries == old(store.entries)[UserKey := Write(UserToJson(user.value))]
      ensures ok ==> store.GetUser() == Success(user)
    {
      var entered := EnteredUser(name, now);
      if entered.None? {
        return false;
      }
      store.SetUser(entered.value);
      user := entered;
      ok := true;
    }

    /** `logout`: the stored user is removed and the state cleared. */
    method Logout()
      modifies this, store
      ensures user == None && !IsAuthenticated()
      ensures store.entries == old(store.entries) - {UserKey}
      ensures store.GetUser() == Success(None)
    {
      store.ClearUser();
      user := None;
    }
  }
}
