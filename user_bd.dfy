/** The user repository: the exact-match login lookup and the listing, both
    returning only the public columns. */
module UserBd {
  import opened Values
  import opened Db
  import Keys

  /** A user as the repository returns it: every column but the password. */
  datatype PublicUser = PublicUser(id: int, name: string, email: string, role: string)

  function Public(u: UserRow): (r: PublicUser)
    ensures r.id == u.id && r.name == u.name && r.email == u.email && r.role == u.role
  {
    PublicUser(u.id, u.name, u.email, u.role)
  }

  /** The WHERE clause of the login lookup for the user stored under `id`. */
  predicate Matching(users: map<int, UserRow>, email: string, password: string, id: int) {
    id in users && users[id].email == email && users[id].password == password
  }

  /** `findByEmailPassword(email, password)`: a user whose email and password
      both equal the arguments, without the password, or nothing when there
      is none. Of several matches (the unique index on email rules them
      out) the one with the smallest id is returned. */
  function FindByEmailPassword(db: Database, email: string, password: string): (r: Option<PublicUser>)
    reads db
    requires db.Valid()
    ensures r.Some? <==> exists id :: Matching(db.users, email, password, id)
    ensures r.Some? ==> Matching(db.users, email, password, r.value.id) && r.value == Public(db.users[r.value.id])
    ensures r.Some? ==> forall id :: Matching(db.users, email, password, id) ==> r.value.id <= id
  {
    var users := db.users;
    var scan := Keys.Asc(users.Keys, SeqValue(db.counters, "users"));
    var hits := Keys.Filter(scan, id => Matching(users, email, password, id));
    Keys.FilterIncreasing(scan, id => Matching(users, email, password, id));
    if hits == [] then None
    else
      forall id | Matching(users, email, password, id) ensures hits[0] <= id {
        assert id in hits;
      }
      Some(Public(users[hits[0]]))
  }

  /** With unique emails, the lookup finds the one user with that email
      exactly when the password is right. */
  lemma {:induction false} FindByUniqueEmail(db: Database, id: int, password: string)
    requires db.Valid()
    requires id in db.users
    requires forall k :: k in db.users && db.users[k].email == db.users[id].email ==> k == id
    ensures FindByEmailPassword(db, db.users[id].email, password)
            == (if db.users[id].password == password then Some(Public(db.users[id])) else None)
  {
    var r := FindByEmailPassword(db, db.users[id].email, password);
    if db.users[id].password == password {
      assert Matching(db.users, db.users[id].email, password, id);
    }
  }

  /** The public columns of the users under `ids`, in that order. */
  function PublicAll(users: map<int, UserRow>, ids: seq<int>): (r: seq<PublicUser>)
    requires forall i :: 0 <= i < |ids| ==> ids[i] in users
    ensures |r| == |ids|
    ensures forall i :: 0 <= i < |r| ==> r[i] == Public(users[ids[i]]) && r[i].id == users[ids[i]].id
  {
    seq(|ids|, i requires 0 <= i < |ids| => Public(users[ids[i]]))
  }

  /** `list()`: every user, without passwords, in ascending id order. */
  function List(db: Database): (r: seq<PublicUser>)
    reads db
    requires db.Valid()
    ensures forall i :: 0 <= i < |r| ==> r[i].id in db.users && r[i] == Public(db.users[r[i].id])
    ensures forall id :: id in db.users ==> exists i :: 0 <= i < |r| && r[i].id == id
    ensures forall i, j :: 0 <= i < j < |r| ==> r[i].id < r[j].id
  {
    PublicRows(db.users, SeqValue(db.counters, "users"))
  }

  /** The public view of a keyed table whose ids stay within 1..top, by
      ascending id. */
  function PublicRows(users: map<int, UserRow>, top: int): (r: seq<PublicUser>)
    requires UsersKeyed(users, top)
    ensures forall i :: 0 <= i < |r| ==> r[i].id in users && r[i] == Public(users[r[i].id])
    ensures forall id :: id in users ==> exists i :: 0 <= i < |r| && r[i].id == id
    ensures forall i, j :: 0 <= i < j < |r| ==> r[i].id < r[j].id
  {
    var ids := Keys.Asc(users.Keys, top);
    assert forall i :: 0 <= i < |ids| ==> ids[i] in ids;
    var r := PublicAll(users, ids);
    assert forall i :: 0 <= i < |r| ==> r[i].id == ids[i];
    assert forall id :: id in ids ==> exists i :: 0 <= i < |ids| && ids[i] == id && r[i].id == id;
    r
  }
}
