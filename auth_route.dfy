/** The `/api/users` login lookup and the `/api/_users` listing. The login
    service it calls only delegates to `UserBd.FindByEmailPassword`. */
module AuthRoute {
  import opened Values
  import opened Db
  import opened UserBd

  /** `GET /users?email=&password=`: the empty array when either parameter is
      missing or empty or no user matches; otherwise the one matching user,
      without its password, in a one-element array. */
  function Users(db: Database, email: Option<string>, password: Option<string>): (r: seq<PublicUser>)
    reads db
    requires db.Valid()
    ensures |r| <= 1
    ensures !Active(email) || !Active(password) ==> r == []
    ensures Active(email) && Active(password) ==>
              (r != [] <==> exists id :: Matching(db.users, email.value, password.value, id))
    ensures r != [] ==>
              Matching(db.users, email.value, password.value, r[0].id) && r[0] == Public(db.users[r[0].id])
  {
    if !Active(email) || !Active(password) then []
    else
      match FindByEmailPassword(db, email.value, password.value)
      case None => []
      case Some(user) => [user]
  }

  /** `GET /_users`: every user, without passwords, by ascending id. */
  function AllUsers(db: Database): (r: seq<PublicUser>)
    reads db
    requires db.Valid()
    ensures r == List(db)
    ensures forall id :: id in db.users ==> exists i :: 0 <= i < |r| && r[i] == Public(db.users[id])
  {
    var r := List(db);
    forall id | id in db.users ensures exists i :: 0 <= i < |r| && r[i] == Public(db.users[id]) {
      var i :| 0 <= i < |r| && r[i].id == id;
    }
    r
  }
}
