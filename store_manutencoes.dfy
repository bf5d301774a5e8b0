/** The client's maintenance store: the cached `lista`, the `filtros` of the
    list screen, the `filtradas` view, and the actions that keep the cache
    in step with the server's replies. Each action takes the reply of its
    request as a parameter; `None` stands for a request that failed, whose
    error propagates before the cache is touched. */
module StoreManutencoes {
  import opened Values
  import opened Text
  import opened ClientList

  /** A maintenance record as the client holds it. The backend never sends
      a `setor` key, which the list filter nevertheless reads. */
  datatype Item = Item(
    id: int, maquinaId: int, tipo: string, descricao: string,
    status: Option<string>, data: string, setor: Option<string>)

  /** The key the actions compare: `String(m.id)`. */
  function Key(m: Item): string {
    ShowInt(m.id)
  }

  /** A reply body: an array, an object that may hold `data`, or anything
      else (null, a number, a string). */
  datatype Json = Arr(items: seq<Item>) | Obj(data: Field<Json>) | Other

  /** `asArray(v)`: an array as it is, the `data` array of an object that
      has one, and `[]` for everything else. */
  function AsArray(v: Json): (r: seq<Item>)
    ensures v.Arr? ==> r == v.items
    ensures v.Obj? && v.data.Given? && v.data.value.Arr? ==> r == v.data.value.items
    ensures !v.Arr? && !(v.Obj? && v.data.Given? && v.data.value.Arr?) ==> r == []
  {
    match v
    case Arr(items) => items
    case Obj(Given(Arr(items))) => items
    case _ => []
  }

  // ---------------------------------------------------------------------
  // filtradas

  /** The three filter fields of the list screen; `''` means "any". */
  datatype Filtros = Filtros(status: string, setor: string, maquinaId: string)

  const SemFiltros: Filtros := Filtros("", "", "")

  /** The predicate `filtradas` applies to one record, as written: the
      sector filter compares `m.setor`. */
  predicate Passes(m: Item, f: Filtros) {
    && (f.status == "" || m.status == Some(f.status))
    && (f.setor == "" || m.setor == Some(f.setor))
    && (f.maquinaId == "" || ShowInt(m.maquinaId) == f.maquinaId)
  }

  /** `filtradas`: the records that pass every non-empty filter, in the
      order of `lista`. */
  function FiltradasOf(lista: seq<Item>, f: Filtros): (r: seq<Item>)
    ensures |r| <= |lista|
    ensures forall m :: m in r <==> m in lista && Passes(m, f)
    decreases |lista|
  {
    if lista == [] then []
    else
      var rest := FiltradasOf(lista[1..], f);
      assert forall m :: m in lista <==> m == lista[0] || m in lista[1..];
      if Passes(lista[0], f) then [lista[0]] + rest else rest
  }

  /** `filtradas` keeps the relative order: it distributes over
      concatenation. */
  lemma {:induction false} FiltradasAppend(a: seq<Item>, b: seq<Item>, f: Filtros)
    ensures FiltradasOf(a + b, f) == FiltradasOf(a, f) + FiltradasOf(b, f)
    decreases |a|
  {
    if a == [] {
      assert a + b == b;
    } else {
      assert (a + b)[1..] == a[1..] + b;
      FiltradasAppend(a[1..], b, f);
      if Passes(a[0], f) {
        calc {
          FiltradasOf(a + b, f);
          [a[0]] + FiltradasOf(a[1..] + b, f);
          [a[0]] + (FiltradasOf(a[1..], f) + FiltradasOf(b, f));
          ([a[0]] + FiltradasOf(a[1..], f)) + FiltradasOf(b, f);
        }
      }
    }
  }

  /** Empty filter fields constrain nothing. */
  lemma {:induction false} FiltradasUnfiltered(lista: seq<Item>)
    ensures FiltradasOf(lista, SemFiltros) == lista
    decreases |lista|
  {
    if lista != [] {
      FiltradasUnfiltered(lista[1..]);
      assert lista == [lista[0]] + lista[1..];
    }
  }

  /** The machine filter compares `String(m.maquinaId)` with the filter
      text, so the filter `String(k)` keeps exactly the records of
      machine `k`. */
  lemma {:induction false} MaquinaFilterSelects(m: Item, k: int)
    ensures Passes(m, Filtros("", "", ShowInt(k))) <==> m.maquinaId == k
  {
    ShowIntInjective(m.maquinaId, k);
  }

  /** As written, the sector filter hides every record that has no `setor`
      key, which is every record the backend sends. */
  lemma SetorFilterHidesBackendRecords(lista: seq<Item>, f: Filtros)
    requires f.setor != ""
    requires forall j :: 0 <= j < |lista| ==> lista[j].setor.None?
    ensures FiltradasOf(lista, f) == []
  {
    forall m | m in lista ensures !Passes(m, f) {
    }
  }

  /** The sector filter as evidently intended: through the sector of the
      record's machine, given the machines' sectors. */
  predicate PassesBySetor(m: Item, f: Filtros, setorOf: map<int, int>) {
    && (f.status == "" || m.status == Some(f.status))
    && (f.setor == "" || (m.maquinaId in setorOf && ShowInt(setorOf[m.maquinaId]) == f.setor))
    && (f.maquinaId == "" || ShowInt(m.maquinaId) == f.maquinaId)
  }

  function FiltradasBySetor(lista: seq<Item>, f: Filtros, setorOf: map<int, int>): (r: seq<Item>)
    ensures forall m :: m in r <==> m in lista && PassesBySetor(m, f, setorOf)
    decreases |lista|
  {
    if lista == [] then []
    else
      var rest := FiltradasBySetor(lista[1..], f, setorOf);
      assert forall m :: m in lista <==> m == lista[0] || m in lista[1..];
      if PassesBySetor(lista[0], f, setorOf) then [lista[0]] + rest else rest
  }

  /** With the intended filter, the sector filter `String(k)` keeps exactly
      the records whose machine is in sector `k`. */
  lemma {:induction false} SetorFilterBySetorSelects(lista: seq<Item>, setorOf: map<int, int>, k: int, m: Item)
    ensures m in FiltradasBySetor(lista, Filtros("", ShowInt(k), ""), setorOf) <==>
              m in lista && m.maquinaId in setorOf && setorOf[m.maquinaId] == k
  {
    if m.maquinaId in setorOf {
      ShowIntInjective(setorOf[m.maquinaId], k);
    }
  }

  // ---------------------------------------------------------------------
  // the store

  class ManutencoesStore {
    var lista: seq<Item>
    var filtros: Filtros

    constructor ()
      ensures lista == [] && filtros == SemFiltros
    {
      lista := [];
      filtros := SemFiltros;
    }

    /** The `filtradas` getter. */
    function Filtradas(): seq<Item>
      reads this
    {
      FiltradasOf(lista, filtros)
    }

    /** `carregar()`: the list becomes `asArray` of the reply. */
    method Carregar(reply: Option<Json>)
      modifies this`lista
      ensures reply.Some? ==> lista == AsArray(reply.value)
      ensures reply.None? ==> lista == old(lista)
    {
      if reply.Some? {
        lista := AsArray(reply.value);
      }
    }

    /** `criar(payload)`: the created record is appended at the end. */
    method Criar(reply: Option<Item>) returns (r: Option<Item>)
      modifies this`lista
      ensures r == reply
      ensures reply.Some? ==> lista == old(lista) + [reply.value]
      ensures reply.None? ==> lista == old(lista)
    {
      if reply.None? {
        return None;
      }
      lista := AsArray(Arr(lista));
      lista := lista + [reply.value];
      r := reply;
    }

    /** `atualizar(id, payload)`: the first record whose `String(id)` is
        `id` is replaced by the reply; no match leaves the list as it was. */
    method Atualizar(id: string, reply: Option<Item>) returns (r: Option<Item>)
      modifies this`lista
      ensures r == reply
      ensures reply.Some? ==> lista == UpdateFirst(old(lista), Key, id, _ => reply.value)
      ensures reply.None? ==> lista == old(lista)
    {
      if reply.None? {
        return None;
      }
      lista := AsArray(Arr(lista));
      var idx := FindIndex(lista, Key, id);
      if idx != -1 {
        lista := lista[idx := reply.value];
      }
      r := reply;
    }

    /** `mudarStatus(id, status)`: only the `status` of the first matching
        record changes, to the status in the reply. */
    method MudarStatus(id: string, reply: Option<Item>) returns (r: Option<Item>)
      modifies this`lista
      ensures r == reply
      ensures reply.Some? ==> lista == UpdateFirst(old(lista), Key, id, (m: Item) => m.(status := reply.value.status))
      ensures reply.None? ==> lista == old(lista)
    {
      if reply.None? {
        return None;
      }
      lista := AsArray(Arr(lista));
      var idx := FindIndex(lista, Key, id);
      if idx != -1 {
        lista := lista[idx := lista[idx].(status := reply.value.status)];
      }
      r := reply;
    }

    /** `moverData(id, dataStr)`: only the `data` of the first matching
        record changes, to the `data` in the reply. */
    method MoverData(id: string, reply: Option<Item>) returns (r: Option<Item>)
      modifies this`lista
      ensures r == reply
      ensures reply.Some? ==> lista == UpdateFirst(old(lista), Key, id, (m: Item) => m.(data := reply.value.data))
      ensures reply.None? ==> lista == old(lista)
    {
      if reply.None? {
        return None;
      }
      lista := AsArray(Arr(lista));
      var idx := FindIndex(lista, Key, id);
      if idx != -1 {
        lista := lista[idx := lista[idx].(data := reply.value.data)];
      }
      r := reply;
    }

    /** `remover(id)`: once the delete succeeds, every record with that id
        is dropped and the rest keep their order. */
    method Remover(id: string, deleted: bool)
      modifies this`lista
      ensures deleted ==> lista == Without(old(lista), Key, id)
      ensures !deleted ==> lista == old(lista)
    {
      if deleted {
        lista := Without(AsArray(Arr(lista)), Key, id);
      }
    }
  }

  /** After `mudarStatus`, the matching record differs from before only in
      its status, and every other record is untouched. */
  lemma {:induction false} MudarStatusTouchesOnlyStatus(lista: seq<Item>, id: string, status: Option<string>)
    ensures var r := UpdateFirst(lista, Key, id, (m: Item) => m.(status := status));
            var i := FindIndex(lista, Key, id);
            && |r| == |lista|
            && (forall j :: 0 <= j < |r| && j != i ==> r[j] == lista[j])
            && (i >= 0 ==> r[i].(status := lista[i].status) == lista[i] && r[i].status == status)
  {
  }
}
