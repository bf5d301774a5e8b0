/** The `/api/manutencoes` handlers: the filtered list, lookup by id, the
    calendar events, and the create, update, patch and delete decisions.
    Route parameters arrive as strings and go through `Number(...)`. */
module ManutencoesRoute {
  import opened Values
  import opened Text
  import opened Db
  import opened Http
  import opened ManutencoesBd

  /** `GET /`: the query-string filters go to `list` unchanged. */
  function GetList(db: Database, f: Filtros): (r: Response<seq<Manutencao>>)
    reads db
    requires db.Valid()
    ensures r.status == Ok200 && r.body.Json?
    ensures r.body.value == List(db, f)
  {
    Response(Ok200, Json(List(db, f)))
  }

  /** `GET /:id`: 404 when `Number(id)` is not a stored record (a
      parameter that is not a number finds nothing), else the record. */
  function GetOne(db: Database, idParam: string): (r: Response<Manutencao>)
    reads db
    ensures r.status == NotFound404 <==> ToNumber(idParam).None? || ToNumber(idParam).value !in db.manutencoes
    ensures r.status == NotFound404 ==> r.body == Error("Manutenção não encontrada")
    ensures r.status != NotFound404 ==>
              r.status == Ok200 && r.body.Json? && Some(r.body.value) == GetById(db, ToNumber(idParam).value)
  {
    var id := ToNumber(idParam);
    var item := if id.Some? then GetById(db, id.value) else None;
    if item.None? then Response(NotFound404, Error("Manutenção não encontrada"))
    else Response(Ok200, Json(item.value))
  }

  /** `GET /:id` on the id of a stored record finds it. */
  lemma {:induction false} GetOneFindsStored(db: Database, id: int)
    requires id in db.manutencoes
    ensures GetOne(db, ShowInt(id)).status == Ok200
    ensures RowOf(GetOne(db, ShowInt(id)).body.value) == db.manutencoes[id]
  {
    ToNumberShowInt(id);
  }

  // ---------------------------------------------------------------------
  // calendar

  /** An event of the calendar feed. */
  datatype Event = Event(id: int, title: string, start: Instant, end: Instant, status: Option<string>)

  /** One row of the calendar query mapped to an event: `start` prefers the
      scheduled date, `end` the completion date, both falling back on each
      other and then on the creation time; the title is `tipo - machine`. */
  function EventOf(row: ManutencaoRow, maquinaNome: string): (e: Event)
    ensures e.id == row.id && e.status == row.status
    ensures e.title == row.tipo + " - " + maquinaNome
    ensures e.start == FirstDate(row.dataAgendada, row.dataRealizada, row.createdAt)
    ensures e.end == FirstDate(row.dataRealizada, row.dataAgendada, row.createdAt)
  {
    Event(row.id, row.tipo + " - " + maquinaNome,
          FirstDate(row.dataAgendada, row.dataRealizada, row.createdAt),
          FirstDate(row.dataRealizada, row.dataAgendada, row.createdAt), row.status)
  }

  /** A record with both dates spans from the scheduled to the completion
      date; with one date, the event starts and ends on it. */
  lemma {:induction false} EventSpan(row: ManutencaoRow, maquinaNome: string)
    ensures row.dataAgendada.Some? && row.dataRealizada.Some? ==>
              EventOf(row, maquinaNome).start == row.dataAgendada.value &&
              EventOf(row, maquinaNome).end == row.dataRealizada.value
    ensures row.dataAgendada.Some? != row.dataRealizada.Some? ==>
              EventOf(row, maquinaNome).start == EventOf(row, maquinaNome).end
    ensures row.dataAgendada.None? && row.dataRealizada.None? ==>
              EventOf(row, maquinaNome).start == row.createdAt == EventOf(row, maquinaNome).end
  {
  }

  /** The event for a record that passes the JOIN on machines. */
  function EventFor(t: map<int, ManutencaoRow>, maquinas: map<int, MaquinaRow>, id: int): Event
    requires Listed(t, maquinas, SemFiltros, id)
  {
    EventOf(t[id], maquinas[t[id].maquinaId].nome)
  }

  /** The events for a scan of records that pass the JOIN, in scan order. */
  function EventsFor(t: map<int, ManutencaoRow>, maquinas: map<int, MaquinaRow>, ids: seq<int>): (r: seq<Event>)
    requires forall i :: 0 <= i < |ids| ==> Listed(t, maquinas, SemFiltros, ids[i])
    ensures |r| == |ids|
    ensures forall i :: 0 <= i < |r| ==> r[i] == EventFor(t, maquinas, ids[i]) && r[i].id == t[ids[i]].id
  {
    seq(|ids|, i requires 0 <= i < |ids| => EventFor(t, maquinas, ids[i]))
  }

  /** `GET /calendar/events`: one event per record whose machine exists
      (the same rows as the unfiltered list), newest id first. */
  function CalendarEvents(db: Database): (r: seq<Event>)
    reads db
    requires db.Valid()
    ensures forall i :: 0 <= i < |r| ==>
              Listed(db.manutencoes, db.maquinas, SemFiltros, r[i].id) &&
              r[i] == EventFor(db.manutencoes, db.maquinas, r[i].id)
    ensures forall id :: Listed(db.manutencoes, db.maquinas, SemFiltros, id) ==>
              exists i :: 0 <= i < |r| && r[i].id == id
    ensures forall i, j :: 0 <= i < j < |r| ==> r[i].id > r[j].id
  {
    CalendarOf(db.manutencoes, db.maquinas, SeqValue(db.counters, "manutencoes"), ListIds(db, SemFiltros))
  }

  /** The events for the listed ids of a keyed table, in the order of `ids`. */
  function CalendarOf(t: map<int, ManutencaoRow>, maquinas: map<int, MaquinaRow>, top: int, ids: seq<int>): (r: seq<Event>)
    requires ManutencoesKeyed(t, top)
    requires forall id :: id in ids <==> Listed(t, maquinas, SemFiltros, id)
    requires Keys.Decreasing(ids)
    ensures forall i :: 0 <= i < |r| ==> Listed(t, maquinas, SemFiltros, r[i].id) && r[i] == EventFor(t, maquinas, r[i].id)
    ensures forall id :: Listed(t, maquinas, SemFiltros, id) ==> exists i :: 0 <= i < |r| && r[i].id == id
    ensures forall i, j :: 0 <= i < j < |r| ==> r[i].id > r[j].id
  {
    assert forall i :: 0 <= i < |ids| ==> ids[i] in ids;
    var r := EventsFor(t, maquinas, ids);
    assert forall i :: 0 <= i < |r| ==> r[i].id == ids[i];
    assert forall id :: id in ids ==> exists i :: 0 <= i < |ids| && ids[i] == id && r[i].id == id;
    r
  }

  /** Every record whose machine exists shows on the calendar, titled with
      that machine's name. */
  lemma {:induction false} CalendarShowsEveryJoinedRecord(db: Database, id: int)
    requires db.Valid()
    requires id in db.manutencoes && db.manutencoes[id].maquinaId in db.maquinas
    ensures exists i :: 0 <= i < |CalendarEvents(db)| && CalendarEvents(db)[i].id == id &&
              CalendarEvents(db)[i].title ==
                db.manutencoes[id].tipo + " - " + db.maquinas[db.manutencoes[id].maquinaId].nome
  {
    assert Listed(db.manutencoes, db.maquinas, SemFiltros, id);
    var r := CalendarEvents(db);
    var i :| 0 <= i < |r| && r[i].id == id;
    assert r[i] == EventFor(db.manutencoes, db.maquinas, id);
  }

  // ---------------------------------------------------------------------
  // changes

  /** The check POST makes before creating: `maquinaId`, `tipo` and
      `descricao` are all truthy. */
  predicate PostValid(p: Payload) {
    TruthyNum(p.maquinaId) && TruthyStr(p.tipo) && TruthyStr(p.descricao)
  }

  /** A body that passes the route's check also passes the schema's. */
  lemma {:induction false} PostValidHasRequired(p: Payload)
    requires PostValid(p)
    ensures HasRequired(p)
  {
  }

  /** `POST /`: 400 and nothing created when a required field is falsy;
      otherwise 201 with the record `create` stored under a fresh id. */
  method Post(db: Database, body: Option<Payload>, now: Instant) returns (r: Response<Manutencao>)
    requires db.Valid()
    modifies db`manutencoes, db`counters
    ensures db.Valid()
    ensures var p := body.GetOr(EmptyPayload);
            && (!PostValid(p) ==>
                  && r == Response(BadRequest400, Error("maquinaId, tipo e descricao são obrigatórios"))
                  && db.manutencoes == old(db.manutencoes) && db.counters == old(db.counters))
            && (PostValid(p) ==>
                  var id := SeqValue(old(db.counters), "manutencoes") + 1;
                  && id !in old(db.manutencoes)
                  && db.manutencoes == old(db.manutencoes)[id := NewRow(id, p, now)]
                  && db.counters == NextSeq(old(db.counters), "manutencoes").0
                  && r.status == Created201
                  && r.body == Json(Normalized(NewRow(id, p, now))))
  {
    var p := body.GetOr(EmptyPayload);
    if !PostValid(p) {
      return Response(BadRequest400, Error("maquinaId, tipo e descricao são obrigatórios"));
    }
    PostValidHasRequired(p);
    var criado := Create(db, p, now);
    r := Response(Created201, Json(criado.value));
  }

  /** `PUT /:id`: the body (or `{}`) is merged into the record; a missing
      record makes `update` throw, which surfaces as 500. */
  method Put(db: Database, idParam: string, body: Option<Payload>) returns (r: Response<Manutencao>)
    requires db.Valid()
    modifies db`manutencoes
    ensures db.Valid()
    ensures var id := ToNumber(idParam);
            && (id.None? || id.value !in old(db.manutencoes) ==>
                  r.status == ServerError500 && db.manutencoes == old(db.manutencoes))
            && (id.Some? && id.value in old(db.manutencoes) ==>
                  var merged := MergeRow(old(db.manutencoes)[id.value], body.GetOr(EmptyPayload));
                  && db.manutencoes == old(db.manutencoes)[id.value := merged]
                  && r == Response(Ok200, Json(Normalized(merged))))
  {
    var id := ToNumber(idParam);
    if id.None? {
      return Response(ServerError500, Error("Manutenção não encontrada"));
    }
    var atualizado := Update(db, id.value, body.GetOr(EmptyPayload));
    r := JsonOrFailure(atualizado);
  }

  /** `PATCH /:id`: status and scheduled date only; a missing record
      surfaces as 500. */
  method Patch(db: Database, idParam: string, body: Option<PatchPayload>) returns (r: Response<Manutencao>)
    requires db.Valid()
    modifies db`manutencoes
    ensures db.Valid()
    ensures var id := ToNumber(idParam);
            && (id.None? || id.value !in old(db.manutencoes) ==>
                  r.status == ServerError500 && db.manutencoes == old(db.manutencoes))
            && (id.Some? && id.value in old(db.manutencoes) ==>
                  var next := PatchRow(old(db.manutencoes)[id.value], body.GetOr(PatchPayload(Absent, Absent)));
                  && db.manutencoes == old(db.manutencoes)[id.value := next]
                  && r == Response(Ok200, Json(Normalized(next))))
  {
    var id := ToNumber(idParam);
    if id.None? {
      return Response(ServerError500, Error("Manutenção não encontrada"));
    }
    var updated := ManutencoesBd.Patch(db, id.value, body.GetOr(PatchPayload(Absent, Absent)));
    r := JsonOrFailure(updated);
  }

  /** `DELETE /:id`: always 204; the record is gone afterwards (a parameter
      that is not a number deletes nothing). */
  method Delete(db: Database, idParam: string) returns (r: Response<()>)
    requires db.Valid()
    modifies db`manutencoes
    ensures db.Valid()
    ensures r == Response(NoContent204, NoContent)
    ensures ToNumber(idParam).Some? ==> db.manutencoes == old(db.manutencoes) - {ToNumber(idParam).value}
    ensures ToNumber(idParam).None? ==> db.manutencoes == old(db.manutencoes)
  {
    var id := ToNumber(idParam);
    if id.Some? {
      var _ := Remove(db, id.value);
    }
    r := Response(NoContent204, NoContent);
  }
}
