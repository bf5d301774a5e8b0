/** The client's sector store: the cached `lista` with its `carregando`
    and `erro` flags, and the actions that follow the server's replies.
    The cache holds nullable entries, since a successful `PUT` answers a
    missing id with a `null` body and that body is stored as it is. A
    reply of `None` stands for a request that failed; an action's result
    of `None` stands for its promise rejecting. */
module StoreSetores {
  import opened Values
  import opened Text
  import opened ClientList
  import Db

  type Setor = Db.SetorRow

  /** The key the actions compare: `String(s.id)`, which throws a
      `TypeError` (`None`) on a `null` entry. */
  function Key(s: Option<Setor>): (k: Option<string>)
    ensures k.None? <==> s.None?
    ensures s.Some? ==> k == Some(ShowInt(s.value.id))
  {
    if s.Some? then Some(ShowInt(s.value.id)) else None
  }

  const ErroCarregar: string := "Falha ao carregar setores"

  class SetoresStore {
    var lista: seq<Option<Setor>>
    var carregando: bool
    var erro: string

    constructor ()
      ensures lista == [] && !carregando && erro == ""
    {
      lista, carregando, erro := [], false, "";
    }

    /** `carregar()`: `carregando` is raised and `erro` reset to `''`; the
        reply replaces the list, or a failure sets the error and keeps the
        list; `carregando` is false at the end either way. */
    method Carregar(reply: Option<seq<Setor>>)
      modifies this`lista, this`carregando, this`erro
      ensures !carregando
      ensures reply.Some? ==> lista == Lift(reply.value) && erro == ""
      ensures reply.None? ==> lista == old(lista) && erro == ErroCarregar
    {
      carregando := true;
      erro := "";
      if reply.Some? {
        lista := Lift(reply.value);
      } else {
        erro := ErroCarregar;
      }
      carregando := false;
    }

    /** `criar(payload)`: the sector the server returns is appended. */
    method Criar(reply: Option<Setor>) returns (r: Option<Setor>)
      modifies this`lista
      ensures r == reply
      ensures reply.Some? ==> lista == old(lista) + [Some(reply.value)]
      ensures reply.None? ==> lista == old(lista)
    {
      r := reply;
      if reply.Some? {
        lista := lista + [Some(reply.value)];
      }
    }

    /** `atualizar(id, payload)`: the body the server returns, `null`
        included, takes the place of the first sector with that id; no
        match leaves the list as it was. The search throws, leaving the
        list as it was, when it meets a `null` entry before a match. */
    method Atualizar(id: string, reply: Option<Option<Setor>>) returns (r: Option<Option<Setor>>)
      modifies this`lista
      ensures reply.None? ==> r.None? && lista == old(lista)
      ensures reply.Some? && FindIndexOrThrow(old(lista), Key, id).None? ==> r.None? && lista == old(lista)
      ensures reply.Some? && FindIndexOrThrow(old(lista), Key, id).Some? ==>
                r == reply && lista == UpdateFirst(old(lista), Key, Some(id), _ => reply.value)
    {
      r := None;
      if reply.Some? {
        var idx := FindIndexOrThrow(lista, Key, id);
        if idx.Some? {
          r := reply;
          if idx.value != -1 {
            lista := lista[idx.value := reply.value];
          }
        }
      }
    }

    /** `remover(id)`: once the delete succeeds, every sector with that id
        is dropped and the rest keep their order; the filter throws, leaving
        the list as it was, when the list holds a `null` entry. */
    method Remover(id: string, deleted: bool) returns (ok: bool)
      modifies this`lista
      ensures ok <==> deleted && WithoutOrThrow(old(lista), Key, id).Some?
      ensures ok ==> lista == Without(old(lista), Key, Some(id))
      ensures !ok ==> lista == old(lista)
    {
      ok := false;
      if deleted {
        var kept := WithoutOrThrow(lista, Key, id);
        if kept.Some? {
          lista, ok := kept.value, true;
        }
      }
    }
  }

  /** Removing a sector that a cache without `null` entries holds once
      succeeds and takes out that entry alone. */
  lemma {:induction false} RemoverDropsOne(lista: seq<Option<Setor>>, i: int)
    requires 0 <= i < |lista|
    requires forall j :: 0 <= j < |lista| ==> lista[j].Some?
    requires forall j :: 0 <= j < |lista| && j != i ==> lista[j].value.id != lista[i].value.id
    ensures WithoutOrThrow(lista, Key, ShowInt(lista[i].value.id)) == Some(lista[..i] + lista[i + 1..])
  {
    var id := ShowInt(lista[i].value.id);
    forall j | 0 <= j < |lista| && j != i ensures Key(lista[j]) != Some(id) {
      ShowIntInjective(lista[j].value.id, lista[i].value.id);
    }
    WithoutSingle(lista, Key, Some(id), i);
  }

  /** Once an update has stored a `null` body, every later removal throws
      and keeps the list. */
  lemma {:induction false} NullBodyBlocksRemover(lista: seq<Option<Setor>>, id: string, other: string)
    requires FindIndexOrThrow(lista, Key, id).Some? && FindIndexOrThrow(lista, Key, id).value >= 0
    ensures WithoutOrThrow(UpdateFirst(lista, Key, Some(id), _ => None), Key, other).None?
  {
    var i := FindIndexOrThrow(lista, Key, id).value;
    var after := UpdateFirst(lista, Key, Some(id), _ => None);
    assert after[i] == None;
    assert Key(after[i]).None?;
  }
}
