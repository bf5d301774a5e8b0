/** The `/api/maquinas` handlers: list, lookup by id, and the create,
    update and delete decisions. */
module MaquinaRoute {
  import opened Values
  import opened Text
  import opened Db
  import opened Http
  import opened MaquinaBd

  /** `GET /`: the `setorId` query parameter goes to `list` unchanged. */
  function GetList(db: Database, setorId: Option<string>): (r: Response<seq<Maquina>>)
    reads db
    requires db.Valid()
    ensures r.status == Ok200 && r.body == Json(List(db, setorId))
  {
    Response(Ok200, Json(List(db, setorId)))
  }

  /** `GET /:id`: 404 unless `Number(id)` is a machine whose sector exists,
      else that machine with its sector. */
  function GetOne(db: Database, idParam: string): (r: Response<Maquina>)
    reads db
    ensures r.status == NotFound404 <==> ToNumber(idParam).None? || !Joined(db, ToNumber(idParam).value)
    ensures r.status == NotFound404 ==> r.body == Error("Máquina não encontrada")
    ensures r.status != NotFound404 ==>
              r.status == Ok200 && r.body == Json(Joining(db, ToNumber(idParam).value))
  {
    var id := ToNumber(idParam);
    var item := if id.Some? then GetById(db, id.value) else None;
    if item.None? then Response(NotFound404, Error("Máquina não encontrada"))
    else Response(Ok200, Json(item.value))
  }

  /** The check POST makes before creating: `nome` and `setorId` are truthy. */
  predicate PostValid(p: Payload) {
    TruthyStr(p.nome) && TruthyNum(p.setorId)
  }

  /** `POST /`: 400 and nothing created when `nome` or `setorId` is falsy;
      otherwise 201 with what `create` returns for the fresh id. */
  method Post(db: Database, body: Option<Payload>, now: Instant) returns (r: Response<Option<Maquina>>)
    requires db.Valid()
    modifies db`maquinas, db`counters
    ensures db.Valid()
    ensures var p := body.GetOr(EmptyPayload);
            && (!PostValid(p) ==>
                  && r == Response(BadRequest400, Error("nome e setorId são obrigatórios"))
                  && db.maquinas == old(db.maquinas) && db.counters == old(db.counters))
            && (PostValid(p) ==>
                  var id := SeqValue(old(db.counters), "maquinas") + 1;
                  && id !in old(db.maquinas)
                  && db.maquinas == old(db.maquinas)[id := NewRow(id, p, now)]
                  && db.counters == NextSeq(old(db.counters), "maquinas").0
                  && r == Response(Created201, Json(GetById(db, id))))
  {
    var p := body.GetOr(EmptyPayload);
    if !PostValid(p) {
      return Response(BadRequest400, Error("nome e setorId são obrigatórios"));
    }
    var criado := Create(db, p, now);
    r := Response(Created201, Json(criado.value));
  }

  /** `PUT /:id`: the body (or `{}`) goes to the merging `update`; when the
      machine cannot be read `update` throws, which surfaces as 500. */
  method Put(db: Database, idParam: string, body: Option<Payload>) returns (r: Response<Option<Maquina>>)
    requires db.Valid()
    modifies db`maquinas
    ensures db.Valid()
    ensures var id := ToNumber(idParam);
            && (id.None? || !old(Joined(db, id.value)) ==>
                  r.status == ServerError500 && db.maquinas == old(db.maquinas))
            && (id.Some? && old(Joined(db, id.value)) ==>
                  && db.maquinas == old(db.maquinas)[id.value := MergeRow(old(db.maquinas)[id.value], body.GetOr(EmptyPayload))]
                  && r == Response(Ok200, Json(GetById(db, id.value))))
  {
    var id := ToNumber(idParam);
    if id.None? {
      return Response(ServerError500, Error("Máquina não encontrada"));
    }
    var atualizado := Update(db, id.value, body.GetOr(EmptyPayload));
    r := JsonOrFailure(atualizado);
  }

  /** `DELETE /:id`: always 204; the machine is gone afterwards. */
  method Delete(db: Database, idParam: string) returns (r: Response<()>)
    requires db.Valid()
    modifies db`maquinas
    ensures db.Valid()
    ensures r == Response(NoContent204, NoContent)
    ensures ToNumber(idParam).Some? ==> db.maquinas == old(db.maquinas) - {ToNumber(idParam).value}
    ensures ToNumber(idParam).None? ==> db.maquinas == old(db.maquinas)
  {
    var id := ToNumber(idParam);
    if id.Some? {
      var _ := Remove(db, id.value);
    }
    r := Response(NoContent204, NoContent);
  }
}
