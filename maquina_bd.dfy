/** The machine repository: `withSetor`, `list` with its sector filter and
    inner join on sectors, `getById`, `create` with its defaults, the merging
    `update`, and `remove`. */
module MaquinaBd {
  import opened Values
  import opened Text
  import opened Db
  import Keys

  /** The `setor` sub-object of an expanded machine. */
  datatype SetorRef = SetorRef(id: int, nome: string)

  /** A machine in the shape the API returns. */
  datatype Maquina = Maquina(
    id: int, nome: string, setorId: int, status: Option<string>, serie: Option<string>,
    createdAt: Instant, setor: Option<SetorRef>)

  /** The stored row behind an expanded machine. */
  function RowOf(m: Maquina): MaquinaRow {
    MaquinaRow(m.id, m.nome, m.setorId, m.status, m.serie, m.createdAt)
  }

  /** `withSetor` of a present row joined with its sector's name: the
      columns are carried over, and `setor` is `{ id: setorId, nome }` when
      the joined name is truthy and is left out otherwise. */
  function Expanded(row: MaquinaRow, setorNome: Option<string>): (r: Maquina)
    ensures RowOf(r) == row
    ensures r.setor.Some? <==> Active(setorNome)
    ensures r.setor.Some? ==> r.setor.value == SetorRef(row.setorId, setorNome.value)
  {
    Maquina(row.id, row.nome, row.setorId, row.status, row.serie, row.createdAt,
            if Active(setorNome) then Some(SetorRef(row.setorId, setorNome.value)) else None)
  }

  /** `withSetor(row)`: null for a missing row. */
  function WithSetor(row: Option<MaquinaRow>, setorNome: Option<string>): (r: Option<Maquina>)
    ensures r.None? <==> row.None?
    ensures row.Some? ==> r == Some(Expanded(row.value, setorNome))
  {
    if row.Some? then Some(Expanded(row.value, setorNome)) else None
  }

  /** The JOIN on sectors: the machine's sector exists. */
  predicate Joined(db: Database, id: int)
    reads db
  {
    id in db.maquinas && db.maquinas[id].setorId in db.setores
  }

  /** The expanded machine for a row that passes the JOIN. */
  function Joining(db: Database, id: int): (r: Maquina)
    reads db
    requires Joined(db, id)
  {
    Expanded(db.maquinas[id], Some(db.setores[db.maquinas[id].setorId].nome))
  }

  // ---------------------------------------------------------------------
  // list

  /** Whether the machine stored under `id` passes the JOIN and the
      optional `setorId` filter of the query string. */
  predicate Listed(maquinas: map<int, MaquinaRow>, setores: map<int, SetorRow>, setorId: Option<string>, id: int) {
    && id in maquinas && maquinas[id].setorId in setores
    && (Active(setorId) ==> ToNumber(setorId.value) == Some(maquinas[id].setorId))
  }

  /** The ids `list({ setorId })` returns, in order: an ascending scan of the
      table keeping the machines that pass the JOIN and the filter. */
  function ListIds(db: Database, setorId: Option<string>): (ids: seq<int>)
    reads db
    requires db.Valid()
    ensures forall id :: id in ids <==> Listed(db.maquinas, db.setores, setorId, id)
    ensures Keys.Increasing(ids)
  {
    var maquinas, setores := db.maquinas, db.setores;
    var scan := Keys.Asc(maquinas.Keys, SeqValue(db.counters, "maquinas"));
    Keys.FilterIncreasing(scan, id => Listed(maquinas, setores, setorId, id));
    Keys.Filter(scan, id => Listed(maquinas, setores, setorId, id))
  }

  /** The expanded machines for a scan of ids that pass the JOIN, in scan
      order. */
  function ExpandAll(maquinas: map<int, MaquinaRow>, setores: map<int, SetorRow>, ids: seq<int>): (r: seq<Maquina>)
    requires forall i :: 0 <= i < |ids| ==> ids[i] in maquinas && maquinas[ids[i]].setorId in setores
    ensures |r| == |ids|
    ensures forall i :: 0 <= i < |r| ==>
              r[i] == Expanded(maquinas[ids[i]], Some(setores[maquinas[ids[i]].setorId].nome)) && r[i].id == maquinas[ids[i]].id
  {
    seq(|ids|, i requires 0 <= i < |ids| => Expanded(maquinas[ids[i]], Some(setores[maquinas[ids[i]].setorId].nome)))
  }

  /** `list({ setorId })`: exactly the machines whose sector exists and,
      when the filter is given, whose `setorId` is `Number(setorId)`, each
      expanded with its sector, in ascending id order. */
  function List(db: Database, setorId: Option<string>): (r: seq<Maquina>)
    reads db
    requires db.Valid()
    ensures forall i :: 0 <= i < |r| ==> Listed(db.maquinas, db.setores, setorId, r[i].id) && r[i] == Joining(db, r[i].id)
    ensures forall id :: Listed(db.maquinas, db.setores, setorId, id) ==> exists i :: 0 <= i < |r| && r[i].id == id
    ensures forall i, j :: 0 <= i < j < |r| ==> r[i].id < r[j].id
  {
    var maquinas, setores := db.maquinas, db.setores;
    var ids := ListIds(db, setorId);
    assert forall i :: 0 <= i < |ids| ==> ids[i] in ids;
    var r := ExpandAll(maquinas, setores, ids);
    assert forall i :: 0 <= i < |r| ==> r[i].id == ids[i];
    assert forall id :: id in ids ==> exists i :: 0 <= i < |ids| && ids[i] == id && r[i].id == id;
    r
  }

  /** A given, numeric `setorId` filter lists exactly the machines of that
      sector, provided the sector exists. */
  lemma {:induction false} ListBySetor(db: Database, setor: int, id: int)
    requires db.Valid()
    requires setor in db.setores
    ensures Listed(db.maquinas, db.setores, Some(ShowInt(setor)), id) <==> id in db.maquinas && db.maquinas[id].setorId == setor
  {
    ToNumberShowInt(setor);
  }

  // ---------------------------------------------------------------------
  // getById

  /** `getById(id)`: the machine expanded with its sector, or null when the
      machine or its sector is missing. */
  function GetById(db: Database, id: int): (r: Option<Maquina>)
    reads db
    ensures r.Some? <==> Joined(db, id)
    ensures r.Some? ==> r.value == Joining(db, id) && RowOf(r.value) == db.maquinas[id]
  {
    if Joined(db, id) then WithSetor(Some(db.maquinas[id]), Some(db.setores[db.maquinas[id].setorId].nome))
    else None
  }

  // ---------------------------------------------------------------------
  // create

  /** A request body for create and update. */
  datatype Payload = Payload(nome: Field<string>, setorId: Field<int>, status: Field<string>, serie: Field<string>)

  const EmptyPayload: Payload := Payload(Absent, Absent, Absent, Absent)

  /** The fields the machine schema marks `required` are there: `nome` is a
      non-empty string and `Number(setorId)` is a number. */
  predicate HasRequired(p: Payload) {
    TruthyStr(p.nome) && NumberOf(p.setorId).Some?
  }

  /** The row `create` inserts: `status` defaults to ATIVA and `serie` to
      null, only when the key is missing. */
  function NewRow(id: int, p: Payload, now: Instant): (row: MaquinaRow)
    requires HasRequired(p)
    ensures row.id == id && row.createdAt == now
    ensures row.nome == p.nome.value && row.setorId == NumberOf(p.setorId).value
    ensures p.status.Absent? ==> row.status == Some(MaquinaStatusDefault)
    ensures p.status.Null? ==> row.status == None
    ensures p.status.Given? ==> row.status == Some(p.status.value)
    ensures row.serie.Some? <==> p.serie.Given?
    ensures p.serie.Given? ==> row.serie.value == p.serie.value
  {
    MaquinaRow(id, p.nome.value, NumberOf(p.setorId).value, Default(p.status, MaquinaStatusDefault),
               OrNull(p.serie), now)
  }

  /** `create(payload)`: a fresh id from the 'maquinas' counter, the row with
      its defaults inserted under it, and `getById` of that id returned (null
      when the sector does not exist). A payload missing a required field is
      refused and nothing changes. */
  method Create(db: Database, p: Payload, now: Instant) returns (r: Result<Option<Maquina>>)
    requires db.Valid()
    modifies db`maquinas, db`counters
    ensures db.Valid()
    ensures !HasRequired(p) ==> r.Err? && db.maquinas == old(db.maquinas) && db.counters == old(db.counters)
    ensures HasRequired(p) ==>
              var id := SeqValue(old(db.counters), "maquinas") + 1;
              && id !in old(db.maquinas)
              && db.maquinas == old(db.maquinas)[id := NewRow(id, p, now)]
              && db.counters == NextSeq(old(db.counters), "maquinas").0
              && r == Ok(GetById(db, id))
              && (r.value.Some? <==> NumberOf(p.setorId).value in db.setores)
  {
    if !HasRequired(p) {
      return Err("nome e setorId são obrigatórios");
    }
    var id := db.CreateMaquina(NewRow(0, p, now));
    assert NewRow(0, p, now).(id := id) == NewRow(id, p, now);
    r := Ok(GetById(db, id));
  }

  // ---------------------------------------------------------------------
  // update

  /** The merge `update` applies: a key that is missing or null keeps the
      current value, a given key replaces it; id and creation time stay. */
  function MergeRow(cur: MaquinaRow, p: Payload): (r: MaquinaRow)
    ensures r.id == cur.id && r.createdAt == cur.createdAt
    ensures Nullish(p.nome) ==> r.nome == cur.nome
    ensures Nullish(p.setorId) ==> r.setorId == cur.setorId
    ensures Nullish(p.status) ==> r.status == cur.status
    ensures Nullish(p.serie) ==> r.serie == cur.serie
    ensures p.nome.Given? ==> r.nome == p.nome.value
    ensures p.setorId.Given? ==> r.setorId == p.setorId.value
    ensures p.status.Given? ==> r.status == Some(p.status.value)
    ensures p.serie.Given? ==> r.serie == Some(p.serie.value)
  {
    MaquinaRow(cur.id, MergeValue(p.nome, cur.nome), MergeValue(p.setorId, cur.setorId),
               Merge(p.status, cur.status), Merge(p.serie, cur.serie), cur.createdAt)
  }

  /** An empty body changes nothing. */
  lemma {:induction false} MergeEmptyIsIdentity(cur: MaquinaRow)
    ensures MergeRow(cur, EmptyPayload) == cur
  {
  }

  /** Sending the same update twice is the same as sending it once. */
  lemma {:induction false} MergeIdempotent(cur: MaquinaRow, p: Payload)
    ensures MergeRow(MergeRow(cur, p), p) == MergeRow(cur, p)
  {
  }

  /** `update(id, payload)`: the current machine is read through the JOIN,
      so a missing machine, or one whose sector is missing, fails and
      nothing changes; otherwise only that machine is replaced by the
      merge, and `getById` of it is returned. */
  method Update(db: Database, id: int, p: Payload) returns (r: Result<Option<Maquina>>)
    requires db.Valid()
    modifies db`maquinas
    ensures db.Valid()
    ensures !old(Joined(db, id)) ==> r.Err? && db.maquinas == old(db.maquinas)
    ensures old(Joined(db, id)) ==>
              && db.maquinas == old(db.maquinas)[id := MergeRow(old(db.maquinas)[id], p)]
              && r == Ok(GetById(db, id))
  {
    var current := GetById(db, id);
    if current.None? {
      return Err("Máquina não encontrada");
    }
    db.maquinas := db.maquinas[id := MergeRow(RowOf(current.value), p)];
    r := Ok(GetById(db, id));
  }

  // ---------------------------------------------------------------------
  // remove

  /** `remove(id)`: the id is gone, every other machine stays, `{ ok: true }`. */
  method Remove(db: Database, id: int) returns (r: Ack)
    requires db.Valid()
    modifies db`maquinas
    ensures db.Valid()
    ensures db.maquinas == old(db.maquinas) - {id}
    ensures r == Ack(true)
  {
    db.maquinas := db.maquinas - {id};
    r := Ack(true);
  }
}
