/** The `/api/setores` handlers: list, lookup by id, and the create, rename
    and delete decisions. */
module SetoresRoute {
  import opened Values
  import opened Text
  import opened Db
  import opened Http
  import opened SetorBd

  /** `GET /`: the sectors sorted by name. */
  function GetList(db: Database): (r: Response<seq<SetorRow>>)
    reads db
    requires db.Valid()
    ensures r.status == Ok200 && r.body.Json?
    ensures SortedByNome(r.body.value)
    ensures forall x :: x in r.body.value <==> x.id in db.setores && db.setores[x.id] == x
    ensures multiset(r.body.value) == multiset(Scan(db))
  {
    forall x: SetorRow ensures x in List(db) <==> x.id in db.setores && db.setores[x.id] == x {
      ListHoldsEveryStoredSetor(db, x);
    }
    Response(Ok200, Json(List(db)))
  }

  /** Stands in for the `CastError` a query on the numeric `id` path
      raises for `NaN`, which `next(e)` turns into a 500; the body the
      error handler sends is not modelled, only that it is an error. */
  const IdCastError: string := "CastError"

  /** `GET /:id`: 500 when `Number(id)` is `NaN`, 404 unless it is a stored
      sector, else 200 with that sector. */
  function GetOne(db: Database, idParam: string): (r: Response<SetorRow>)
    reads db
    requires db.Valid()
    ensures ToNumber(idParam).None? ==> r == Response(ServerError500, Error(IdCastError))
    ensures r.status == NotFound404 <==> ToNumber(idParam).Some? && ToNumber(idParam).value !in db.setores
    ensures r.status == NotFound404 ==> r.body == Error("Setor não encontrado")
    ensures ToNumber(idParam).Some? && ToNumber(idParam).value in db.setores ==>
              r == Response(Ok200, Json(db.setores[ToNumber(idParam).value]))
  {
    var id := ToNumber(idParam);
    if id.None? then Response(ServerError500, Error(IdCastError))
    else
      var item := GetById(db, id.value);
      if item.None? then Response(NotFound404, Error("Setor não encontrado"))
      else Response(Ok200, Json(item.value))
  }

  /** `POST /`: 400 and nothing created when `nome` is falsy; otherwise 201
      with the sector stored under the next 'setores' value. */
  method Post(db: Database, nome: Field<string>) returns (r: Response<SetorRow>)
    requires db.Valid()
    modifies db`setores, db`counters
    ensures db.Valid()
    ensures !TruthyStr(nome) ==>
              && r == Response(BadRequest400, Error("Nome é obrigatório"))
              && db.setores == old(db.setores) && db.counters == old(db.counters)
    ensures TruthyStr(nome) ==>
              var id := SeqValue(old(db.counters), "setores") + 1;
              && id !in old(db.setores)
              && db.setores == old(db.setores)[id := SetorRow(id, nome.value)]
              && db.counters == NextSeq(old(db.counters), "setores").0
              && r == Response(Created201, Json(SetorRow(id, nome.value)))
  {
    if !TruthyStr(nome) {
      return Response(BadRequest400, Error("Nome é obrigatório"));
    }
    var criado := Create(db, nome);
    r := Response(Created201, Json(criado.value));
  }

  /** `PUT /:id`: 400 and nothing changed when `nome` is falsy; otherwise
      only `nome` goes to `update`, whose result (null for a missing
      sector) is sent with 200. */
  method Put(db: Database, idParam: string, nome: Field<string>) returns (r: Response<Option<SetorRow>>)
    requires db.Valid()
    modifies db`setores
    ensures db.Valid()
    ensures !TruthyStr(nome) ==>
              r == Response(BadRequest400, Error("Nome é obrigatório")) && db.setores == old(db.setores)
    ensures TruthyStr(nome) && ToNumber(idParam).None? ==>
              r == Response(ServerError500, Error(IdCastError)) && db.setores == old(db.setores)
    ensures TruthyStr(nome) && ToNumber(idParam).Some? ==>
              var id := ToNumber(idParam);
              && r.status == Ok200
              && (id.value in old(db.setores) ==>
                    && db.setores == old(db.setores)[id.value := SetorRow(id.value, nome.value)]
                    && r.body == Json(Some(SetorRow(id.value, nome.value))))
              && (id.value !in old(db.setores) ==>
                    db.setores == old(db.setores) && r.body == Json(None))
  {
    if !TruthyStr(nome) {
      return Response(BadRequest400, Error("Nome é obrigatório"));
    }
    var id := ToNumber(idParam);
    if id.None? {
      return Response(ServerError500, Error(IdCastError));
    }
    var atualizado := Update(db, id.value, nome.value);
    r := Response(Ok200, Json(atualizado));
  }

  /** `DELETE /:id`: 500 and no change when `Number(id)` is `NaN`;
      otherwise 204 and the sector is gone afterwards. */
  method Delete(db: Database, idParam: string) returns (r: Response<()>)
    requires db.Valid()
    modifies db`setores
    ensures db.Valid()
    ensures ToNumber(idParam).Some? ==>
              r == Response(NoContent204, NoContent) && db.setores == old(db.setores) - {ToNumber(idParam).value}
    ensures ToNumber(idParam).None? ==>
              r == Response(ServerError500, Error(IdCastError)) && db.setores == old(db.setores)
  {
    var id := ToNumber(idParam);
    if id.None? {
      return Response(ServerError500, Error(IdCastError));
    }
    var _ := Remove(db, id.value);
    r := Response(NoContent204, NoContent);
  }
}
