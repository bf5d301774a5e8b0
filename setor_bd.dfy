/** The sector repository: `list` sorted by name, `getById`, `create`
    through the 'setores' sequence, the name-only `update`, and `remove`.
    A sector in the API has exactly the stored fields `id` and `nome`, so
    `Db.SetorRow` is also the returned shape. */
module SetorBd {
  import opened Values
  import opened Text
  import opened Db
  import Keys

  /** Names never decrease along `s`. */
  predicate SortedByNome(s: seq<SetorRow>) {
    forall i, j :: 0 <= i < j < |s| ==> StrLe(s[i].nome, s[j].nome)
  }

  /** Puts `x` before the first name of `s` it does not exceed. */
  function Insert(x: SetorRow, s: seq<SetorRow>): (r: seq<SetorRow>)
    ensures multiset(r) == multiset(s) + multiset{x}
    decreases |s|
  {
    if s == [] then [x]
    else if StrLe(x.nome, s[0].nome) then [x] + s
    else
      assert s == [s[0]] + s[1..];
      [s[0]] + Insert(x, s[1..])
  }

  /** Inserting into a sorted sequence keeps it sorted. */
  lemma {:induction false} InsertSorted(x: SetorRow, s: seq<SetorRow>)
    requires SortedByNome(s)
    ensures SortedByNome(Insert(x, s))
    decreases |s|
  {
    if s == [] {
    } else if StrLe(x.nome, s[0].nome) {
      forall j | 0 <= j < |s| ensures StrLe(x.nome, s[j].nome) {
        if j > 0 {
          StrLeTransitive(x.nome, s[0].nome, s[j].nome);
        }
      }
      SortedCons(x, s);
    } else {
      StrLeTotal(x.nome, s[0].nome);
      InsertSorted(x, s[1..]);
      InsertKeepsLowerBound(s[0], x, s[1..]);
      SortedCons(s[0], Insert(x, s[1..]));
    }
  }

  /** A row whose name is at most every name of a sorted sequence can go in
      front of it. */
  lemma {:induction false} SortedCons(a: SetorRow, s: seq<SetorRow>)
    requires SortedByNome(s)
    requires forall j :: 0 <= j < |s| ==> StrLe(a.nome, s[j].nome)
    ensures SortedByNome([a] + s)
  {
    var r := [a] + s;
    assert forall j :: 1 <= j < |r| ==> r[j] == s[j - 1];
  }

  /** A name at most `x`'s and at most every name of `t` is at most every
      name after `x` is inserted into `t`. */
  lemma {:induction false} InsertKeepsLowerBound(a: SetorRow, x: SetorRow, t: seq<SetorRow>)
    requires StrLe(a.nome, x.nome)
    requires forall j :: 0 <= j < |t| ==> StrLe(a.nome, t[j].nome)
    ensures forall j :: 0 <= j < |Insert(x, t)| ==> StrLe(a.nome, Insert(x, t)[j].nome)
  {
    var r := Insert(x, t);
    forall j | 0 <= j < |r| ensures StrLe(a.nome, r[j].nome) {
      assert r[j] in multiset(r);
      if r[j] != x {
        assert r[j] in multiset(t);
        var k :| 0 <= k < |t| && t[k] == r[j];
      }
    }
  }

  /** Insertion sort on `nome`. */
  function SortByNome(s: seq<SetorRow>): (r: seq<SetorRow>)
    ensures SortedByNome(r)
    ensures multiset(r) == multiset(s)
    decreases |s|
  {
    if s == [] then []
    else
      assert s == [s[0]] + s[1..];
      var rest := SortByNome(s[1..]);
      InsertSorted(s[0], rest);
      Insert(s[0], rest)
  }

  /** The stored sectors in ascending id order. */
  function Scan(db: Database): (r: seq<SetorRow>)
    reads db
    requires db.Valid()
    ensures forall i :: 0 <= i < |r| ==> r[i].id in db.setores && r[i] == db.setores[r[i].id]
    ensures forall id :: id in db.setores ==> exists i :: 0 <= i < |r| && r[i].id == id
    ensures forall i, j :: 0 <= i < j < |r| ==> r[i].id < r[j].id
  {
    AscRows(db.setores, SeqValue(db.counters, "setores"))
  }

  /** The rows stored under `ids`, in the order of `ids`. */
  function RowsAt(setores: map<int, SetorRow>, ids: seq<int>): (r: seq<SetorRow>)
    requires forall i :: 0 <= i < |ids| ==> ids[i] in setores
    ensures |r| == |ids|
    ensures forall i :: 0 <= i < |r| ==> r[i] == setores[ids[i]] && r[i].id == setores[ids[i]].id
  {
    seq(|ids|, i requires 0 <= i < |ids| => setores[ids[i]])
  }

  /** The rows of a keyed table whose ids stay within 1..top, by ascending id. */
  function AscRows(setores: map<int, SetorRow>, top: int): (r: seq<SetorRow>)
    requires SetoresKeyed(setores, top)
    ensures forall i :: 0 <= i < |r| ==> r[i].id in setores && r[i] == setores[r[i].id]
    ensures forall id :: id in setores ==> exists i :: 0 <= i < |r| && r[i].id == id
    ensures forall i, j :: 0 <= i < j < |r| ==> r[i].id < r[j].id
  {
    var ids := Keys.Asc(setores.Keys, top);
    assert forall i :: 0 <= i < |ids| ==> ids[i] in ids;
    var r := RowsAt(setores, ids);
    assert forall i :: 0 <= i < |r| ==> r[i].id == ids[i];
    assert forall id :: id in ids ==> exists i :: 0 <= i < |ids| && ids[i] == id && r[i].id == id;
    r
  }

  /** `list()`: every stored sector exactly once, with only `id` and `nome`,
      sorted ascending by `nome`. */
  function List(db: Database): (r: seq<SetorRow>)
    reads db
    requires db.Valid()
    ensures SortedByNome(r)
    ensures multiset(r) == multiset(Scan(db))
  {
    SortByNome(Scan(db))
  }

  /** A sector is listed exactly when it is stored. */
  lemma {:induction false} ListHoldsEveryStoredSetor(db: Database, x: SetorRow)
    requires db.Valid()
    ensures x in List(db) <==> x.id in db.setores && db.setores[x.id] == x
  {
    var s := Scan(db);
    assert x in List(db) <==> x in multiset(s);
    if x.id in db.setores && db.setores[x.id] == x {
      var i :| 0 <= i < |s| && s[i].id == x.id;
      assert s[i] == x;
    }
  }

  /** `getById(id)`: the stored sector, or null. */
  function GetById(db: Database, id: int): (r: Option<SetorRow>)
    reads db
    requires db.Valid()
    ensures r.Some? <==> id in db.setores
    ensures r.Some? ==> r.value == db.setores[id] && r.value.id == id
  {
    if id in db.setores then Some(db.setores[id]) else None
  }

  /** `create({ nome })`: the next value of the 'setores' sequence becomes the
      id of a sector with that name, which is returned. The sequence is
      drawn before the schema checks the name, so a missing or empty name
      still uses up a value while nothing is stored. */
  method Create(db: Database, nome: Field<string>) returns (r: Result<SetorRow>)
    requires db.Valid()
    modifies db`setores, db`counters
    ensures db.Valid()
    ensures db.counters == NextSeq(old(db.counters), "setores").0
    ensures var id := SeqValue(old(db.counters), "setores") + 1;
            && id !in old(db.setores)
            && (TruthyStr(nome) ==>
                  && db.setores == old(db.setores)[id := SetorRow(id, nome.value)]
                  && r == Ok(SetorRow(id, nome.value))
                  && Some(r.value) == GetById(db, id))
            && (!TruthyStr(nome) ==> r.Err? && db.setores == old(db.setores))
  {
    var next := db.GetNextSeq("setores");
    if !TruthyStr(nome) {
      return Err("nome é obrigatório");
    }
    db.setores := db.setores[next := SetorRow(next, nome.value)];
    r := Ok(GetById(db, next).value);
  }

  /** `update(id, { nome })`: only the name of that sector changes and it is
      returned; a missing id changes nothing and gives null. */
  method Update(db: Database, id: int, nome: string) returns (r: Option<SetorRow>)
    requires db.Valid()
    modifies db`setores
    ensures db.Valid()
    ensures id in old(db.setores) ==>
              db.setores == old(db.setores)[id := SetorRow(id, nome)] && r == Some(SetorRow(id, nome))
    ensures id !in old(db.setores) ==> db.setores == old(db.setores) && r.None?
  {
    if id in db.setores {
      db.setores := db.setores[id := db.setores[id].(nome := nome)];
    }
    r := GetById(db, id);
  }

  /** `remove(id)`: the id is gone, every other sector stays, `{ ok: true }`. */
  method Remove(db: Database, id: int) returns (r: Ack)
    requires db.Valid()
    modifies db`setores
    ensures db.Valid()
    ensures db.setores == old(db.setores) - {id}
    ensures r == Ack(true)
  {
    db.setores := db.setores - {id};
    r := Ack(true);
  }
}
