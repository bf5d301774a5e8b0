/** The client's session store: `isAuthed`, `login` (the server's `/users`
    lookup first, then a built-in list of two accounts) and `logout`. The
    server's reply and the clock are parameters; a reply of None stands for a
    request that failed or did not return an array. */
module StoreAuth {
  import opened Values
  import opened Text
  import opened Db
  import opened UserBd
  import opened ClientList

  /** The accounts `login` accepts when the server does not answer. */
  const FallbackUsers: seq<UserRow> := [
    UserRow(1, "Admin", "admin@smpm.local", "123456", "admin"),
    UserRow(2, "Operador", "oper@smpm.local", "123456", "user")]

  /** The built-in accounts are the ones the backend seeds into an empty
      database. */
  lemma {:induction false} FallbackUsersAreSeedUsers()
    ensures forall i :: 0 <= i < |FallbackUsers| ==> FallbackUsers[i] == SeedUsers(0)[i + 1]
    ensures SeedUsers(0).Keys == {1, 2}
  {
  }

  function Credentials(u: UserRow): (string, string) {
    (u.email, u.password)
  }

  /** `fallback.find(u => u.email === email && u.password === password)`. */
  function FindFallback(email: string, password: string): (r: Option<UserRow>)
    ensures r.Some? <==> exists i :: 0 <= i < |FallbackUsers| && Credentials(FallbackUsers[i]) == (email, password)
    ensures r.Some? ==> r.value in FallbackUsers && r.value.email == email && r.value.password == password
  {
    var i := FindIndex(FallbackUsers, Credentials, (email, password));
    if i == -1 then None else Some(FallbackUsers[i])
  }

  /** The user kept from a server reply: `role` falls back to 'user' when
      it is empty. */
  function Adopt(u: PublicUser): (r: PublicUser)
    ensures r.id == u.id && r.name == u.name && r.email == u.email
    ensures r.role != ""
    ensures u.role != "" ==> r.role == u.role
  {
    u.(role := if u.role == "" then "user" else u.role)
  }

  /** `` `mock.${id}.${Date.now()}` ``. */
  function Token(id: int, now: int): (t: string)
    ensures t != "" && StartsWith(t, "mock.")
  {
    var t := "mock." + ShowInt(id) + "." + ShowInt(now);
    assert t[..5] == "mock.";
    t
  }

  datatype LoginResult = LoginResult(ok: bool, error: Option<string>)

  const Success: LoginResult := LoginResult(true, None)
  const Failure: LoginResult := LoginResult(false, Some("Credenciais inválidas"))

  class AuthStore {
    var user: Option<PublicUser>
    var token: Option<string>

    /** The state starts from a saved session, where an empty token counts
        as none. */
    constructor (savedUser: Option<PublicUser>, savedToken: Option<string>)
      ensures user == savedUser
      ensures token == (if savedToken == Some("") then None else savedToken)
    {
      user := savedUser;
      token := if savedToken == Some("") then None else savedToken;
    }

    /** `isAuthed`: a user and a non-empty token. */
    predicate IsAuthed()
      reads this
    {
      user.Some? && token.Some? && token.value != ""
    }

    /** `login({ email, password })`: a non-empty server reply signs in its
        first user; otherwise a built-in account with both credentials equal
        does, without its password; otherwise the session is unchanged and
        the failure is returned. Any success leaves the store authenticated. */
    method Login(email: string, password: string, reply: Option<seq<PublicUser>>, now: int) returns (r: LoginResult)
      modifies this
      ensures reply.Some? && |reply.value| > 0 ==>
                && r == Success
                && user == Some(Adopt(reply.value[0]))
                && token == Some(Token(reply.value[0].id, now))
      ensures !(reply.Some? && |reply.value| > 0) && FindFallback(email, password).Some? ==>
                && r == Success
                && user == Some(Public(FindFallback(email, password).value))
                && token == Some(Token(FindFallback(email, password).value.id, now))
      ensures !(reply.Some? && |reply.value| > 0) && FindFallback(email, password).None? ==>
                r == Failure && user == old(user) && token == old(token)
      ensures r.ok ==> IsAuthed()
    {
      if reply.Some? && |reply.value| > 0 {
        var u := reply.value[0];
        user := Some(Adopt(u));
        token := Some(Token(u.id, now));
        return Success;
      }
      var found := FindFallback(email, password);
      if found.Some? {
        user := Some(Public(found.value));
        token := Some(Token(found.value.id, now));
        return Success;
      }
      r := Failure;
    }

    /** `logout()`: no user and no token. */
    method Logout()
      modifies this
      ensures user.None? && token.None?
      ensures !IsAuthed()
    {
      user := None;
      token := None;
    }
  }

  /** Without a server, exactly the two built-in credential pairs sign in. */
  lemma {:induction false} FallbackAccepts(email: string, password: string)
    ensures FindFallback(email, password).Some? <==>
              (email == "admin@smpm.local" || email == "oper@smpm.local") && password == "123456"
  {
    if (email == "admin@smpm.local" || email == "oper@smpm.local") && password == "123456" {
      var i := if email == "admin@smpm.local" then 0 else 1;
      assert Credentials(FallbackUsers[i]) == (email, password);
    }
  }
}
