/** The client's machine store: the cached `lista` with its `carregando`
    and `erro` flags, and the actions that follow the server's replies.
    The cache holds nullable entries, since a successful `POST` or `PUT`
    can answer with a `null` body (a machine whose sector is missing) and
    that body is stored as it is. A reply of `None` stands for a request
    that failed; an action's result of `None` stands for its promise
    rejecting. */
module StoreMaquinas {
  import opened Values
  import opened Text
  import opened ClientList
  import MaquinaBd
  import MaquinaRoute

  type Maquina = MaquinaBd.Maquina

  /** The key the actions compare: `String(m.id)`, which throws a
      `TypeError` (`None`) on a `null` entry. */
  function Key(m: Option<Maquina>): (k: Option<string>)
    ensures k.None? <==> m.None?
    ensures m.Some? ==> k == Some(ShowInt(m.value.id))
  {
    if m.Some? then Some(ShowInt(m.value.id)) else None
  }

  /** The machine form: `setorId` is the text of a select box. */
  datatype Form = Form(nome: Field<string>, setorId: Field<string>, status: Field<string>, serie: Field<string>)

  /** `Number(x)` on a text key, as it travels in JSON: a missing key is
      `NaN` and `NaN` is sent as `null`; `null` becomes 0. */
  function NumberField(f: Field<string>): (r: Field<int>)
    ensures f.Absent? ==> r.Null?
    ensures f.Null? ==> r == Given(0)
    ensures f.Given? && ToNumber(f.value).Some? ==> r == Given(ToNumber(f.value).value)
    ensures f.Given? && ToNumber(f.value).None? ==> r.Null?
  {
    match f
    case Absent => Null
    case Null => Given(0)
    case Given(s) => if ToNumber(s).Some? then Given(ToNumber(s).value) else Null
  }

  /** `{ ...payload, setorId: Number(payload.setorId) }`. */
  function RequestBody(form: Form): (p: MaquinaBd.Payload)
    ensures p.nome == form.nome && p.status == form.status && p.serie == form.serie
    ensures p.setorId == NumberField(form.setorId)
  {
    MaquinaBd.Payload(form.nome, NumberField(form.setorId), form.status, form.serie)
  }

  /** A form whose sector is the text of a non-zero id and whose name is
      filled in passes the server's POST check, with that id. */
  lemma {:induction false} RequestBodyPassesPost(nome: string, setor: int, status: Field<string>, serie: Field<string>)
    requires nome != "" && setor != 0
    ensures var p := RequestBody(Form(Given(nome), Given(ShowInt(setor)), status, serie));
            MaquinaRoute.PostValid(p) && p.setorId == Given(setor)
  {
    ToNumberShowInt(setor);
  }

  const ErroCarregar: string := "Falha ao carregar máquinas"

  class MaquinasStore {
    var lista: seq<Option<Maquina>>
    var carregando: bool
    var erro: string

    constructor ()
      ensures lista == [] && !carregando && erro == ""
    {
      lista, carregando, erro := [], false, "";
    }

    /** `carregar()`: `carregando` is raised and `erro` cleared; the reply
        replaces the list, or a failure sets the error and keeps the list;
        `carregando` is false at the end either way. */
    method Carregar(reply: Option<seq<Maquina>>)
      modifies this`lista, this`carregando, this`erro
      ensures !carregando
      ensures reply.Some? ==> lista == Lift(reply.value) && erro == ""
      ensures reply.None? ==> lista == old(lista) && erro == ErroCarregar
    {
      carregando := true;
      erro := "";
      if reply.Some? {
        lista := Lift(reply.value);
      } else {
        erro := ErroCarregar;
      }
      carregando := false;
    }

    /** `criar(payload)`: sends the form with `setorId` as a number and
        appends the body the server returns, `null` included. */
    method Criar(form: Form, reply: Option<Option<Maquina>>) returns (sent: MaquinaBd.Payload, r: Option<Option<Maquina>>)
      modifies this`lista
      ensures sent == RequestBody(form) && r == reply
      ensures reply.Some? ==> lista == old(lista) + [reply.value]
      ensures reply.None? ==> lista == old(lista)
    {
      sent := RequestBody(form);
      r := reply;
      if reply.Some? {
        lista := lista + [reply.value];
      }
    }

    /** `atualizar(id, payload)`: sends the form with `setorId` as a number
        and puts the body the server returns, `null` included, in place of
        the first machine with that id. The search throws, leaving the list
        as it was, when it meets a `null` entry before a match. */
    method Atualizar(id: string, form: Form, reply: Option<Option<Maquina>>) returns (sent: MaquinaBd.Payload, r: Option<Option<Maquina>>)
      modifies this`lista
      ensures sent == RequestBody(form)
      ensures reply.None? ==> r.None? && lista == old(lista)
      ensures reply.Some? && FindIndexOrThrow(old(lista), Key, id).None? ==> r.None? && lista == old(lista)
      ensures reply.Some? && FindIndexOrThrow(old(lista), Key, id).Some? ==>
                r == reply && lista == UpdateFirst(old(lista), Key, Some(id), _ => reply.value)
    {
      sent := RequestBody(form);
      r := None;
      if reply.Some? {
        var idx := FindIndexOrThrow(lista, Key, id);
        if idx.Some? {
          r := reply;
          if idx.value != -1 {
            lista := lista[idx.value := reply.value];
          }
        }
      }
    }

    /** `remover(id)`: once the delete succeeds, every machine with that id
        is dropped and the rest keep their order; the filter throws, leaving
        the list as it was, when the list holds a `null` entry. */
    method Remover(id: string, deleted: bool) returns (ok: bool)
      modifies this`lista
      ensures ok <==> deleted && WithoutOrThrow(old(lista), Key, id).Some?
      ensures ok ==> lista == Without(old(lista), Key, Some(id))
      ensures !ok ==> lista == old(lista)
    {
      ok := false;
      if deleted {
        var kept := WithoutOrThrow(lista, Key, id);
        if kept.Some? {
          lista, ok := kept.value, true;
        }
      }
    }
  }

  /** Once a `null` body has been appended, removing any machine throws,
      and so does updating one that no earlier entry matches. */
  lemma {:induction false} NullEntryBlocksLaterActions(lista: seq<Option<Maquina>>, id: string)
    requires forall j :: 0 <= j < |lista| ==> Key(lista[j]) != Some(id)
    ensures WithoutOrThrow(lista + [None], Key, id).None?
    ensures FindIndexOrThrow(lista + [None], Key, id).None?
  {
    var s := lista + [None];
    assert Key(s[|lista|]).None?;
    assert forall k :: 0 <= k < |lista| ==> Key(s[k]) != Some(id) by {
      forall k | 0 <= k < |lista| ensures Key(s[k]) != Some(id) {
        assert s[k] == lista[k];
      }
    }
  }
}
