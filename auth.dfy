/**
 * The authentication hook: the signed-in user, the token and a loading
 * flag, kept next to a persistent store the hook reads once on mount and
 * writes on every change.
 */
module Auth {
  import opened JsValues

  /** `{ ...user, ...patch }`: the fields of `patch` win, every other field
      of `user` is kept. */
  function MergeUser(user: Object, patch: Object): (r: Object)
    ensures r.Keys == user.Keys + patch.Keys
    ensures forall k :: k in patch ==> r[k] == patch[k]
    ensures forall k :: k in user && k !in patch ==> r[k] == user[k]
  {
    user + patch
  }

  /** Patching twice with the same fields is patching once. */
  lemma MergeUserIdempotent(user: Object, patch: Object)
    ensures MergeUser(MergeUser(user, patch), patch) == MergeUser(user, patch)
  {
    var once := MergeUser(user, patch);
    assert MergeUser(once, patch) == once;
  }

  /** A later patch overrides an earlier one field by field. */
  lemma MergeUserComposes(user: Object, p: Object, q: Object)
    ensures MergeUser(MergeUser(user, p), q) == MergeUser(user, MergeUser(p, q))
  {
    assert MergeUser(MergeUser(user, p), q) == MergeUser(user, MergeUser(p, q));
  }

  /** The hook's state and the store it persists to. `storedToken` and
      `storedUser` stand for what the token and user getters of the auth
      helpers return. */
  class AuthSession {
    var user: Option<Object>
    var token: Option<string>
    var loading: bool
    var storedToken: Option<string>
    var storedUser: Option<Object>

    /** Once loading is over, the hook shows what the store holds. */
    predicate Mirrors()
      reads this
    {
      !loading ==> user == storedUser && token == storedToken
    }

    /** The state on mount, before the store has been read. */
    constructor (storedToken: Option<string>, storedUser: Option<Object>)
      ensures user.None? && token.None? && loading
      ensures this.storedToken == storedToken && this.storedUser == storedUser
      ensures Mirrors()
    {
      user, token, loading := None, None, true;
      this.storedToken, this.storedUser := storedToken, storedUser;
    }

    /** The mount effect: copy the stored token and user, stop loading. */
    method Load()
      modifies this`user, this`token, this`loading
      ensures token == storedToken && user == storedUser && !loading
      ensures Mirrors()
    {
      token := storedToken;
      user := storedUser;
      loading := false;
    }

    /** `login`: store the token and the user, then show them. */
    method Login(authToken: string, userData: Object)
      modifies this`user, this`token, this`storedToken, this`storedUser
      ensures token == Some(authToken) && user == Some(userData)
      ensures storedToken == token && storedUser == user
      ensures loading == old(loading)
      ensures Mirrors()
    {
      storedToken := Some(authToken);
      storedUser := Some(userData);
      token := Some(authToken);
      user := Some(userData);
    }

    /** `logout`: clear the store and the state. */
    method Logout()
      modifies this`user, this`token, this`storedToken, this`storedUser
      ensures token.None? && user.None?
      ensures storedToken.None? && storedUser.None?
      ensures loading == old(loading)
      ensures Mirrors()
    {
      storedToken := None;
      storedUser := None;
      token := None;
      user := None;
    }

    /** `updateUser`: with nobody signed in nothing changes; otherwise the
        patched user is stored and shown, and the token is kept. */
    method UpdateUser(patch: Object)
      modifies this`user, this`storedUser
      ensures old(user).None? ==> user == old(user) && storedUser == old(storedUser)
      ensures old(user).Some? ==> user == Some(MergeUser(old(user).value, patch)) && storedUser == user
      ensures old(Mirrors()) ==> Mirrors()
    {
      if user.Some? {
        var newUser := user.value + patch;
        storedUser := Some(newUser);
        user := Some(newUser);
      }
    }
  }
}
