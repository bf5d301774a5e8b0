/** The maintenance-record repository: `normalize`, `list` with its
    optional filters and inner join on machines, `getById`, `create` with
    its defaults, the merging `update`, the status/date `patch`, and
    `remove`. */
module ManutencoesBd {
  import opened Values
  import opened Text
  import opened Db
  import Keys

  /** A record in the shape the API returns: the stored row plus `data`, the
      date the calendar and the ordering use. */
  datatype Manutencao = Manutencao(
    id: int, maquinaId: int, tipo: string, descricao: string,
    dataAgendada: Option<Instant>, dataRealizada: Option<Instant>, data: Instant,
    status: Option<string>, prioridade: Option<int>, createdAt: Instant)

  /** `a || b || c` over nullable dates (a stored date is always truthy). */
  function FirstDate(a: Option<Instant>, b: Option<Instant>, c: Instant): (r: Instant)
    ensures a.Some? ==> r == a.value
    ensures a.None? && b.Some? ==> r == b.value
    ensures a.None? && b.None? ==> r == c
  {
    if a.Some? then a.value else if b.Some? then b.value else c
  }

  /** The stored row behind an API record (everything but `data`). */
  function RowOf(m: Manutencao): ManutencaoRow {
    ManutencaoRow(m.id, m.maquinaId, m.tipo, m.descricao, m.dataAgendada, m.dataRealizada,
                  m.status, m.prioridade, m.createdAt)
  }

  /** `normalize` of a present row: every column is carried over unchanged,
      and `data` is the scheduled date, else the completion date, else the
      creation time. */
  function Normalized(row: ManutencaoRow): (r: Manutencao)
    ensures RowOf(r) == row
    ensures r.data == FirstDate(row.dataAgendada, row.dataRealizada, row.createdAt)
  {
    Manutencao(row.id, row.maquinaId, row.tipo, row.descricao, row.dataAgendada, row.dataRealizada,
               FirstDate(row.dataAgendada, row.dataRealizada, row.createdAt),
               row.status, row.prioridade, row.createdAt)
  }

  /** `normalize(row)`: null for a missing row. */
  function Normalize(row: Option<ManutencaoRow>): (r: Option<Manutencao>)
    ensures r.None? <==> row.None?
    ensures row.Some? ==> RowOf(r.value) == row.value
    ensures row.Some? ==>
              r.value.data == FirstDate(row.value.dataAgendada, row.value.dataRealizada, row.value.createdAt)
  {
    if row.Some? then Some(Normalized(row.value)) else None
  }

  /** Two rows normalize to the same record only if they are the same row. */
  lemma {:induction false} NormalizedInjective(a: ManutencaoRow, b: ManutencaoRow)
    ensures Normalized(a) == Normalized(b) ==> a == b
  {
    if Normalized(a) == Normalized(b) {
      assert RowOf(Normalized(a)) == RowOf(Normalized(b));
    }
  }

  // ---------------------------------------------------------------------
  // list

  /** The query-string filters `status`, `maquinaId` and `setor`. */
  datatype Filtros = Filtros(status: Option<string>, maquinaId: Option<string>, setor: Option<string>)

  const SemFiltros: Filtros := Filtros(None, None, None)

  /** The JOIN on machines and the WHERE clause, for one row: the machine
      exists, and every filter that was supplied holds (`Number(...)` of an
      id filter that is not a number matches nothing). */
  predicate Matches(row: ManutencaoRow, maquinas: map<int, MaquinaRow>, f: Filtros) {
    && row.maquinaId in maquinas
    && (Active(f.status) ==> row.status == Some(f.status.value))
    && (Active(f.maquinaId) ==> ToNumber(f.maquinaId.value) == Some(row.maquinaId))
    && (Active(f.setor) ==> ToNumber(f.setor.value) == Some(maquinas[row.maquinaId].setorId))
  }

  /** Whether the record stored under `id` passes the JOIN and the filters. */
  predicate Listed(t: map<int, ManutencaoRow>, maquinas: map<int, MaquinaRow>, f: Filtros, id: int) {
    id in t && Matches(t[id], maquinas, f)
  }

  /** `rows.map(normalize)` over the rows stored under `ids`. */
  function NormalizeAll(t: map<int, ManutencaoRow>, ids: seq<int>): (r: seq<Manutencao>)
    requires forall i :: 0 <= i < |ids| ==> ids[i] in t
    ensures |r| == |ids|
    ensures forall i :: 0 <= i < |r| ==> r[i] == Normalized(t[ids[i]]) && r[i].id == t[ids[i]].id
  {
    seq(|ids|, i requires 0 <= i < |ids| => Normalized(t[ids[i]]))
  }

  /** The ids `list(filtros)` returns, in order: a descending scan of the
      table, keeping the records that pass the JOIN and the filters. */
  function ListIds(db: Database, f: Filtros): (ids: seq<int>)
    reads db
    requires db.Valid()
    ensures forall id :: id in ids <==> Listed(db.manutencoes, db.maquinas, f, id)
    ensures Keys.Decreasing(ids)
  {
    var t, maquinas := db.manutencoes, db.maquinas;
    var scan := Keys.Desc(t.Keys, SeqValue(db.counters, "manutencoes"));
    Keys.FilterDecreasing(scan, id => Listed(t, maquinas, f, id));
    Keys.Filter(scan, id => Listed(t, maquinas, f, id))
  }

  /** `list(filtros)`: exactly the records whose machine exists and that
      satisfy every supplied filter, each normalized, newest id first. */
  function List(db: Database, f: Filtros): (r: seq<Manutencao>)
    reads db
    requires db.Valid()
    ensures forall i :: 0 <= i < |r| ==>
              Listed(db.manutencoes, db.maquinas, f, r[i].id) && r[i] == Normalized(db.manutencoes[r[i].id])
    ensures forall id :: Listed(db.manutencoes, db.maquinas, f, id) ==> exists i :: 0 <= i < |r| && r[i].id == id
    ensures forall i, j :: 0 <= i < j < |r| ==> r[i].id > r[j].id
  {
    var ids := ListIds(db, f);
    var r := NormalizeAll(db.manutencoes, ids);
    assert forall i :: 0 <= i < |r| ==> r[i].id == ids[i];
    assert forall id :: id in ids ==> exists i :: 0 <= i < |ids| && ids[i] == id && r[i].id == id;
    r
  }

  /** Without filters, `list` holds every record whose machine exists and
      no other. */
  lemma {:induction false} ListUnfiltered(db: Database, id: int)
    requires db.Valid()
    requires id in db.manutencoes
    ensures (exists i :: 0 <= i < |List(db, SemFiltros)| && List(db, SemFiltros)[i].id == id)
            <==> db.manutencoes[id].maquinaId in db.maquinas
  {
    var r := List(db, SemFiltros);
    if db.manutencoes[id].maquinaId in db.maquinas {
      assert Matches(db.manutencoes[id], db.maquinas, SemFiltros);
    }
  }

  /** The filters are a conjunction: a record is listed under filters `f`
      exactly when it is listed under each supplied filter on its own. */
  lemma {:induction false} FiltersConjoin(row: ManutencaoRow, maquinas: map<int, MaquinaRow>, f: Filtros)
    ensures Matches(row, maquinas, f) <==>
              Matches(row, maquinas, Filtros(f.status, None, None)) &&
              Matches(row, maquinas, Filtros(None, f.maquinaId, None)) &&
              Matches(row, maquinas, Filtros(None, None, f.setor))
  {
  }

  // ---------------------------------------------------------------------
  // getById

  /** `getById(id)`: the normalized row, or null when there is none. */
  function GetById(db: Database, id: int): (r: Option<Manutencao>)
    reads db
    ensures r.Some? <==> id in db.manutencoes
    ensures r.Some? ==> RowOf(r.value) == db.manutencoes[id]
    ensures r.Some? ==> r.value == Normalized(db.manutencoes[id])
  {
    Normalize(if id in db.manutencoes then Some(db.manutencoes[id]) else None)
  }

  // ---------------------------------------------------------------------
  // create

  /** A request body for create and update: each key may be missing, null
      or given. */
  datatype Payload = Payload(
    maquinaId: Field<int>, tipo: Field<string>, descricao: Field<string>,
    dataAgendada: Field<Instant>, dataRealizada: Field<Instant>,
    status: Field<string>, prioridade: Field<int>)

  const EmptyPayload: Payload := Payload(Absent, Absent, Absent, Absent, Absent, Absent, Absent)

  /** The fields the maintenance schema marks `required` are there:
      `Number(maquinaId)` is a number (a missing key gives `NaN`), and `tipo`
      and `descricao` are non-empty strings. */
  predicate HasRequired(p: Payload) {
    NumberOf(p.maquinaId).Some? && TruthyStr(p.tipo) && TruthyStr(p.descricao)
  }

  /** The row `create` inserts: `status` defaults to PENDENTE and the dates
      and priority default to null, but only when the key is missing (an
      explicit null is stored as null). */
  function NewRow(id: int, p: Payload, now: Instant): (row: ManutencaoRow)
    requires HasRequired(p)
    ensures row.id == id && row.createdAt == now
    ensures row.maquinaId == NumberOf(p.maquinaId).value && row.tipo == p.tipo.value && row.descricao == p.descricao.value
    ensures p.status.Absent? ==> row.status == Some(ManutencaoStatusDefault)
    ensures p.status.Null? ==> row.status == None
    ensures p.status.Given? ==> row.status == Some(p.status.value)
    ensures row.dataAgendada.Some? <==> p.dataAgendada.Given?
    ensures row.dataRealizada.Some? <==> p.dataRealizada.Given?
    ensures row.prioridade.Some? <==> p.prioridade.Given?
    ensures p.dataAgendada.Given? ==> row.dataAgendada.value == p.dataAgendada.value
    ensures p.dataRealizada.Given? ==> row.dataRealizada.value == p.dataRealizada.value
    ensures p.prioridade.Given? ==> row.prioridade.value == p.prioridade.value
  {
    ManutencaoRow(id, NumberOf(p.maquinaId).value, p.tipo.value, p.descricao.value,
                  OrNull(p.dataAgendada), OrNull(p.dataRealizada),
                  Default(p.status, ManutencaoStatusDefault), OrNull(p.prioridade), now)
  }

  /** `create(payload)`: a fresh id from the 'manutencoes' counter, the row
      with its defaults inserted under it, and the stored record returned.
      A payload missing a required field is refused and nothing changes. */
  method Create(db: Database, p: Payload, now: Instant) returns (r: Result<Manutencao>)
    requires db.Valid()
    modifies db`manutencoes, db`counters
    ensures db.Valid()
    ensures !HasRequired(p) ==>
              r.Err? && db.manutencoes == old(db.manutencoes) && db.counters == old(db.counters)
    ensures HasRequired(p) ==>
              var id := SeqValue(old(db.counters), "manutencoes") + 1;
              && id !in old(db.manutencoes)
              && db.manutencoes == old(db.manutencoes)[id := NewRow(id, p, now)]
              && db.counters == NextSeq(old(db.counters), "manutencoes").0
              && r == Ok(Normalized(NewRow(id, p, now)))
              && Some(r.value) == GetById(db, id)
  {
    if !HasRequired(p) {
      return Err("maquinaId, tipo e descricao são obrigatórios");
    }
    var id := db.CreateManutencao(NewRow(0, p, now));
    assert NewRow(0, p, now).(id := id) == NewRow(id, p, now);
    r := Ok(GetById(db, id).value);
  }

  // ---------------------------------------------------------------------
  // update

  /** The merge `update` applies: a key that is missing or null keeps the
      stored value, a given key replaces it; id and creation time stay. */
  function MergeRow(cur: ManutencaoRow, p: Payload): (r: ManutencaoRow)
    ensures r.id == cur.id && r.createdAt == cur.createdAt
    ensures Nullish(p.maquinaId) ==> r.maquinaId == cur.maquinaId
    ensures Nullish(p.tipo) ==> r.tipo == cur.tipo
    ensures Nullish(p.descricao) ==> r.descricao == cur.descricao
    ensures Nullish(p.dataAgendada) ==> r.dataAgendada == cur.dataAgendada
    ensures Nullish(p.dataRealizada) ==> r.dataRealizada == cur.dataRealizada
    ensures Nullish(p.status) ==> r.status == cur.status
    ensures Nullish(p.prioridade) ==> r.prioridade == cur.prioridade
    ensures p.maquinaId.Given? ==> r.maquinaId == p.maquinaId.value
    ensures p.tipo.Given? ==> r.tipo == p.tipo.value
    ensures p.descricao.Given? ==> r.descricao == p.descricao.value
    ensures p.dataAgendada.Given? ==> r.dataAgendada == Some(p.dataAgendada.value)
    ensures p.dataRealizada.Given? ==> r.dataRealizada == Some(p.dataRealizada.value)
    ensures p.status.Given? ==> r.status == Some(p.status.value)
    ensures p.prioridade.Given? ==> r.prioridade == Some(p.prioridade.value)
  {
    ManutencaoRow(cur.id, MergeValue(p.maquinaId, cur.maquinaId), MergeValue(p.tipo, cur.tipo),
                  MergeValue(p.descricao, cur.descricao),
                  Merge(p.dataAgendada, cur.dataAgendada), Merge(p.dataRealizada, cur.dataRealizada),
                  Merge(p.status, cur.status), Merge(p.prioridade, cur.prioridade), cur.createdAt)
  }

  /** `update(id, {})` changes nothing: the result is `getById(id)`. */
  lemma {:induction false} MergeEmptyIsIdentity(cur: ManutencaoRow)
    ensures MergeRow(cur, EmptyPayload) == cur
  {
  }

  /** Sending the same update twice is the same as sending it once. */
  lemma {:induction false} MergeIdempotent(cur: ManutencaoRow, p: Payload)
    ensures MergeRow(MergeRow(cur, p), p) == MergeRow(cur, p)
  {
  }

  /** `update(id, payload)`: fails on a missing id and changes nothing;
      otherwise only that record is replaced by the merge, and the stored
      record is returned. */
  method Update(db: Database, id: int, p: Payload) returns (r: Result<Manutencao>)
    requires db.Valid()
    modifies db`manutencoes
    ensures db.Valid()
    ensures id !in old(db.manutencoes) ==> r.Err? && db.manutencoes == old(db.manutencoes)
    ensures id in old(db.manutencoes) ==>
              && db.manutencoes == old(db.manutencoes)[id := MergeRow(old(db.manutencoes)[id], p)]
              && r == Ok(Normalized(MergeRow(old(db.manutencoes)[id], p)))
              && Some(r.value) == GetById(db, id)
  {
    var cur := GetById(db, id);
    if cur.None? {
      return Err("Manutenção não encontrada");
    }
    db.manutencoes := db.manutencoes[id := MergeRow(RowOf(cur.value), p)];
    r := Ok(GetById(db, id).value);
  }

  // ---------------------------------------------------------------------
  // patch

  /** The body of a PATCH: a new status and/or a new scheduled date. */
  datatype PatchPayload = PatchPayload(status: Field<string>, data: Field<Instant>)

  /** What `patch` writes: a truthy `status` replaces the status, a given
      `data` replaces the scheduled date, and nothing else changes. */
  function PatchRow(cur: ManutencaoRow, p: PatchPayload): (r: ManutencaoRow)
    ensures r.(status := cur.status, dataAgendada := cur.dataAgendada) == cur
    ensures r.status == (if TruthyStr(p.status) then Some(p.status.value) else cur.status)
    ensures r.dataAgendada == (if p.data.Given? then Some(p.data.value) else cur.dataAgendada)
  {
    var next := cur;
    var next := if TruthyStr(p.status) then next.(status := Some(p.status.value)) else next;
    if p.data.Given? then next.(dataAgendada := Some(p.data.value)) else next
  }

  /** `patch(id, payload)`: fails on a missing id and changes nothing;
      otherwise only that record's status and scheduled date may change. */
  method Patch(db: Database, id: int, p: PatchPayload) returns (r: Result<Manutencao>)
    requires db.Valid()
    modifies db`manutencoes
    ensures db.Valid()
    ensures id !in old(db.manutencoes) ==> r.Err? && db.manutencoes == old(db.manutencoes)
    ensures id in old(db.manutencoes) ==>
              && db.manutencoes == old(db.manutencoes)[id := PatchRow(old(db.manutencoes)[id], p)]
              && r == Ok(Normalized(PatchRow(old(db.manutencoes)[id], p)))
  {
    var cur := GetById(db, id);
    if cur.None? {
      return Err("Manutenção não encontrada");
    }
    db.manutencoes := db.manutencoes[id := PatchRow(RowOf(cur.value), p)];
    r := Ok(GetById(db, id).value);
  }

  // ---------------------------------------------------------------------
  // remove

  /** `remove(id)`: the id is gone, every other record stays, `{ ok: true }`. */
  method Remove(db: Database, id: int) returns (r: Ack)
    requires db.Valid()
    modifies db`manutencoes
    ensures db.Valid()
    ensures db.manutencoes == old(db.manutencoes) - {id}
    ensures r == Ack(true)
  {
    db.manutencoes := db.manutencoes - {id};
    r := Ack(true);
  }
}
