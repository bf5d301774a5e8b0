/** The store behind every repository: the four tables (sectors, machines,
    maintenance records, users), the per-name id counters of the
    'counters' collection, the schema enums and defaults, and the seed run
    at start-up. */
module Db {
  import opened Values

  /** Instants are milliseconds in local time. */
  type Instant = int

  const DayMs: int := 86400000

  datatype SetorRow = SetorRow(id: int, nome: string)

  datatype MaquinaRow = MaquinaRow(
    id: int, nome: string, setorId: int,
    status: Option<string>, serie: Option<string>, createdAt: Instant)

  datatype ManutencaoRow = ManutencaoRow(
    id: int, maquinaId: int, tipo: string, descricao: string,
    dataAgendada: Option<Instant>, dataRealizada: Option<Instant>,
    status: Option<string>, prioridade: Option<int>, createdAt: Instant)

  datatype UserRow = UserRow(id: int, name: string, email: string, password: string, role: string)

  // Schema enums and defaults.
  const MaquinaStatuses: set<string> := {"ATIVA", "PARADA", "MANUTENCAO"}
  const MaquinaStatusDefault: string := "ATIVA"
  const ManutencaoStatuses: set<string> := {"PENDENTE", "EM_ANDAMENTO", "CONCLUIDA"}
  const ManutencaoStatusDefault: string := "PENDENTE"
  const ManutencaoTipos: set<string> := {"PREVENTIVA", "CORRETIVA"}
  const UserRoleDefault: string := "user"

  /** Each schema default lies inside the enum it defaults. */
  lemma {:induction false} SchemaDefaultsInEnums()
    ensures MaquinaStatusDefault in MaquinaStatuses
    ensures ManutencaoStatusDefault in ManutencaoStatuses
  {
  }

  // ---------------------------------------------------------------------
  // Id counters

  /** The last value issued for `name` (a counter document starts at 0). */
  function SeqValue(counters: map<string, int>, name: string): int {
    if name in counters then counters[name] else 0
  }

  /** One `getNextSeq(name)`: the counter is upserted at 0, incremented by
      one, and the incremented value is returned with the new counters. */
  function NextSeq(counters: map<string, int>, name: string): (r: (map<string, int>, int))
    ensures r.1 == SeqValue(counters, name) + 1
    ensures SeqValue(r.0, name) == r.1
    ensures forall other :: other != name ==> SeqValue(r.0, other) == SeqValue(counters, other)
  {
    var v := SeqValue(counters, name) + 1;
    (counters[name := v], v)
  }

  /** The values returned by `n` successive `getNextSeq(name)` calls. */
  function Draws(counters: map<string, int>, name: string, n: nat): seq<int>
    decreases n
  {
    if n == 0 then []
    else
      var next := NextSeq(counters, name);
      [next.1] + Draws(next.0, name, n - 1)
  }

  /** The counters after `n` successive `getNextSeq(name)` calls. */
  function AfterDraws(counters: map<string, int>, name: string, n: nat): map<string, int>
    decreases n
  {
    if n == 0 then counters else AfterDraws(NextSeq(counters, name).0, name, n - 1)
  }

  /** The first `getNextSeq` for a name never used before returns 1. */
  lemma {:induction false} FirstDrawIsOne(counters: map<string, int>, name: string)
    requires name !in counters
    ensures Draws(counters, name, 1) == [1]
  {
  }

  /** Successive calls return consecutive values, each one above the last. */
  lemma {:induction false} DrawsConsecutive(counters: map<string, int>, name: string, n: nat)
    ensures |Draws(counters, name, n)| == n
    ensures forall i :: 0 <= i < n ==> Draws(counters, name, n)[i] == SeqValue(counters, name) + i + 1
    ensures SeqValue(AfterDraws(counters, name, n), name) == SeqValue(counters, name) + n
    decreases n
  {
    if n > 0 {
      var next := NextSeq(counters, name);
      DrawsConsecutive(next.0, name, n - 1);
    }
  }

  /** Calls on one name leave every other name's counter as it was. */
  lemma {:induction false} DrawsIndependent(counters: map<string, int>, name: string, n: nat, other: string)
    requires other != name
    ensures SeqValue(AfterDraws(counters, name, n), other) == SeqValue(counters, other)
    decreases n
  {
    if n > 0 {
      DrawsIndependent(NextSeq(counters, name).0, name, n - 1, other);
    }
  }

  // ---------------------------------------------------------------------
  // Seed data

  function SeedUsers(u: int): map<int, UserRow> {
    map[u + 1 := UserRow(u + 1, "Admin", "admin@smpm.local", "123456", "admin"),
        u + 2 := UserRow(u + 2, "Operador", "oper@smpm.local", "123456", "user")]
  }

  function SeedSetores(s: int): map<int, SetorRow> {
    map[s + 1 := SetorRow(s + 1, "Montagem"),
        s + 2 := SetorRow(s + 2, "Pintura"),
        s + 3 := SetorRow(s + 3, "Usinagem")]
  }

  function SeedMaquinas(m: int, s: int, now: Instant): map<int, MaquinaRow> {
    map[m + 1 := MaquinaRow(m + 1, "Prensa Hidráulica", s + 1, Some("ATIVA"), Some("PH-001"), now),
        m + 2 := MaquinaRow(m + 2, "Esteira XZ", s + 2, Some("MANUTENCAO"), Some("EXZ-234"), now),
        m + 3 := MaquinaRow(m + 3, "Torno CNC", s + 3, Some("PARADA"), Some("TC-987"), now)]
  }

  function SeedManutencoes(k: int, m: int, now: Instant): map<int, ManutencaoRow> {
    map[k + 1 := ManutencaoRow(k + 1, m + 1, "PREVENTIVA", "Troca de óleo e inspeção",
                               Some(now), None, Some("PENDENTE"), Some(2), now),
        k + 2 := ManutencaoRow(k + 2, m + 2, "CORRETIVA", "Substituição de rolamento",
                               Some(now + DayMs), None, Some("EM_ANDAMENTO"), Some(1), now),
        k + 3 := ManutencaoRow(k + 3, m + 3, "PREVENTIVA", "Ajuste e limpeza",
                               None, Some(now - 2 * DayMs), Some("CONCLUIDA"), Some(3), now)]
  }

  /** Every seeded machine points at a seeded sector, every seeded record at
      a seeded machine, and the seeded values respect the schema enums. */
  lemma {:induction false} SeedReferencesResolve(u: int, s: int, m: int, k: int, now: Instant)
    ensures forall id :: id in SeedMaquinas(m, s, now) ==> SeedMaquinas(m, s, now)[id].setorId in SeedSetores(s)
    ensures forall id :: id in SeedManutencoes(k, m, now) ==> SeedManutencoes(k, m, now)[id].maquinaId in SeedMaquinas(m, s, now)
    ensures forall id :: id in SeedMaquinas(m, s, now) ==> SeedMaquinas(m, s, now)[id].status.value in MaquinaStatuses
    ensures forall id :: id in SeedManutencoes(k, m, now) ==>
              SeedManutencoes(k, m, now)[id].status.value in ManutencaoStatuses &&
              SeedManutencoes(k, m, now)[id].tipo in ManutencaoTipos
  {
  }

  /** Adding three entries one after the other is adding the three-entry map. */
  lemma {:induction false} UnionOfThree<R>(t: map<int, R>, a: int, ra: R, b: int, rb: R, c: int, rc: R)
    requires a < b < c
    ensures t + map[a := ra, b := rb, c := rc] == t[a := ra][b := rb][c := rc]
  {
  }

  // ---------------------------------------------------------------------
  // The store


  /** Every row sits under its own id, and every id lies in 1..counter. */
  ghost predicate SetoresKeyed(t: map<int, SetorRow>, top: int) {
    forall k :: k in t ==> t[k].id == k && 1 <= k <= top
  }
  ghost predicate MaquinasKeyed(t: map<int, MaquinaRow>, top: int) {
    forall k :: k in t ==> t[k].id == k && 1 <= k <= top
  }
  ghost predicate ManutencoesKeyed(t: map<int, ManutencaoRow>, top: int) {
    forall k :: k in t ==> t[k].id == k && 1 <= k <= top
  }
  ghost predicate UsersKeyed(t: map<int, UserRow>, top: int) {
    forall k :: k in t ==> t[k].id == k && 1 <= k <= top
  }

  /** The seeded machines take ids above every machine already stored. */
  lemma {:induction false} SeedMaquinasFresh(t: map<int, MaquinaRow>, m: int, s: int, now: Instant)
    requires MaquinasKeyed(t, m)
    ensures t.Keys !! SeedMaquinas(m, s, now).Keys
  {
  }

  /** The seeded records take ids above every record already stored. */
  lemma {:induction false} SeedManutencoesFresh(t: map<int, ManutencaoRow>, k: int, m: int, now: Instant)
    requires ManutencoesKeyed(t, k)
    ensures t.Keys !! SeedManutencoes(k, m, now).Keys
  {
  }

  /** The counters after seeding sectors, machines and records: three draws
      on each of 'setores', 'maquinas' and 'manutencoes'. */
  function PlantDraws(counters: map<string, int>): map<string, int> {
    AfterDraws(AfterDraws(AfterDraws(counters, "setores", 3), "maquinas", 3), "manutencoes", 3)
  }

  /** The counters after `seedIfEmpty`: two 'users' draws when the users
      table was empty, then the plant's draws when the sectors table was. */
  function SeedCounters(counters: map<string, int>, usersEmpty: bool, setoresEmpty: bool): map<string, int> {
    var u := if usersEmpty then AfterDraws(counters, "users", 2) else counters;
    if setoresEmpty then PlantDraws(u) else u
  }

  /** Seeding advances 'users' by two and the three plant counters by three
      each, only for the tables it fills, and leaves every other name alone. */
  lemma {:induction false} SeedCountersValues(counters: map<string, int>, usersEmpty: bool, setoresEmpty: bool, other: string)
    requires other !in {"users", "setores", "maquinas", "manutencoes"}
    ensures var c := SeedCounters(counters, usersEmpty, setoresEmpty);
            && SeqValue(c, "users") == SeqValue(counters, "users") + (if usersEmpty then 2 else 0)
            && SeqValue(c, "setores") == SeqValue(counters, "setores") + (if setoresEmpty then 3 else 0)
            && SeqValue(c, "maquinas") == SeqValue(counters, "maquinas") + (if setoresEmpty then 3 else 0)
            && SeqValue(c, "manutencoes") == SeqValue(counters, "manutencoes") + (if setoresEmpty then 3 else 0)
            && SeqValue(c, other) == SeqValue(counters, other)
  {
    var u := if usersEmpty then AfterDraws(counters, "users", 2) else counters;
    if usersEmpty {
      DrawsConsecutive(counters, "users", 2);
      DrawsIndependent(counters, "users", 2, "setores");
      DrawsIndependent(counters, "users", 2, "maquinas");
      DrawsIndependent(counters, "users", 2, "manutencoes");
      DrawsIndependent(counters, "users", 2, other);
    }
    if setoresEmpty {
      var c1 := AfterDraws(u, "setores", 3);
      var c2 := AfterDraws(c1, "maquinas", 3);
      DrawsConsecutive(u, "setores", 3);
      DrawsIndependent(u, "setores", 3, "users");
      DrawsIndependent(u, "setores", 3, "maquinas");
      DrawsIndependent(u, "setores", 3, "manutencoes");
      DrawsIndependent(u, "setores", 3, other);
      DrawsConsecutive(c1, "maquinas", 3);
      DrawsIndependent(c1, "maquinas", 3, "users");
      DrawsIndependent(c1, "maquinas", 3, "setores");
      DrawsIndependent(c1, "maquinas", 3, "manutencoes");
      DrawsIndependent(c1, "maquinas", 3, other);
      DrawsConsecutive(c2, "manutencoes", 3);
      DrawsIndependent(c2, "manutencoes", 3, "users");
      DrawsIndependent(c2, "manutencoes", 3, "setores");
      DrawsIndependent(c2, "manutencoes", 3, "maquinas");
      DrawsIndependent(c2, "manutencoes", 3, other);
    }
  }

  class Database {
    var setores: map<int, SetorRow>
    var maquinas: map<int, MaquinaRow>
    var manutencoes: map<int, ManutencaoRow>
    var users: map<int, UserRow>
    var counters: map<string, int>

    ghost predicate Valid()
      reads this
    {
      && SetoresKeyed(setores, SeqValue(counters, "setores"))
      && MaquinasKeyed(maquinas, SeqValue(counters, "maquinas"))
      && ManutencoesKeyed(manutencoes, SeqValue(counters, "manutencoes"))
      && UsersKeyed(users, SeqValue(counters, "users"))
      && (forall name :: name in counters ==> counters[name] >= 0)
    }

    constructor ()
      ensures Valid()
      ensures setores == map[] && maquinas == map[] && manutencoes == map[] && users == map[]
      ensures counters == map[]
    {
      setores, maquinas, manutencoes, users := map[], map[], map[], map[];
      counters := map[];
    }

    /** `getNextSeq(name)`; the value returned is above every id in use. */
    method GetNextSeq(name: string) returns (v: int)
      requires Valid()
      modifies this`counters
      ensures (counters, v) == NextSeq(old(counters), name)
      ensures Valid()
    {
      var next := NextSeq(counters, name);
      counters := next.0;
      v := next.1;
    }

    /** `Model.create` with an id already drawn from the table's counter. */
    method InsertSetor(row: SetorRow)
      requires Valid() && 1 <= row.id <= SeqValue(counters, "setores") && row.id !in setores
      modifies this`setores
      ensures Valid() && setores == old(setores)[row.id := row]
    {
      setores := setores[row.id := row];
    }

    method InsertMaquina(row: MaquinaRow)
      requires Valid() && 1 <= row.id <= SeqValue(counters, "maquinas") && row.id !in maquinas
      modifies this`maquinas
      ensures Valid() && maquinas == old(maquinas)[row.id := row]
    {
      maquinas := maquinas[row.id := row];
    }

    /** `getNextSeq('maquinas')` followed by `Model.create` of the row under
        the id drawn. */
    method CreateMaquina(row: MaquinaRow) returns (id: int)
      requires Valid()
      modifies this`maquinas, this`counters
      ensures Valid()
      ensures id == SeqValue(old(counters), "maquinas") + 1 && id !in old(maquinas)
      ensures maquinas == old(maquinas)[id := row.(id := id)]
      ensures counters == NextSeq(old(counters), "maquinas").0
    {
      id := GetNextSeq("maquinas");
      InsertMaquina(row.(id := id));
    }

    /** `getNextSeq('manutencoes')` followed by `Model.create` of the row
        under the id drawn. */
    method CreateManutencao(row: ManutencaoRow) returns (id: int)
      requires Valid()
      modifies this`manutencoes, this`counters
      ensures Valid()
      ensures id == SeqValue(old(counters), "manutencoes") + 1 && id !in old(manutencoes)
      ensures manutencoes == old(manutencoes)[id := row.(id := id)]
      ensures counters == NextSeq(old(counters), "manutencoes").0
    {
      id := GetNextSeq("manutencoes");
      InsertManutencao(row.(id := id));
    }

    method InsertManutencao(row: ManutencaoRow)
      requires Valid() && 1 <= row.id <= SeqValue(counters, "manutencoes") && row.id !in manutencoes
      modifies this`manutencoes
      ensures Valid() && manutencoes == old(manutencoes)[row.id := row]
    {
      manutencoes := manutencoes[row.id := row];
    }

    method InsertUser(row: UserRow)
      requires Valid() && 1 <= row.id <= SeqValue(counters, "users") && row.id !in users
      modifies this`users
      ensures Valid() && users == old(users)[row.id := row]
    {
      users := users[row.id := row];
    }

    /** `seedIfEmpty`: the two users only when there are no users, and the
        sectors, machines and maintenance records only when there are no
        sectors. Afterwards neither table is empty, so a second run adds
        nothing. */
    method SeedIfEmpty(now: Instant)
      requires Valid()
      modifies this
      ensures Valid()
      ensures old(users) != map[] ==> users == old(users)
      ensures old(users) == map[] ==> users == SeedUsers(SeqValue(old(counters), "users"))
      ensures old(setores) != map[] ==>
                setores == old(setores) && maquinas == old(maquinas) && manutencoes == old(manutencoes)
      ensures old(setores) == map[] ==>
                var s := SeqValue(old(counters), "setores");
                var m := SeqValue(old(counters), "maquinas");
                var k := SeqValue(old(counters), "manutencoes");
                && setores == SeedSetores(s)
                && maquinas == old(maquinas) + SeedMaquinas(m, s, now)
                && manutencoes == old(manutencoes) + SeedManutencoes(k, m, now)
                && old(maquinas).Keys !! SeedMaquinas(m, s, now).Keys
                && old(manutencoes).Keys !! SeedManutencoes(k, m, now).Keys
      ensures counters == SeedCounters(old(counters), old(users) == map[], old(setores) == map[])
      ensures users != map[] && setores != map[]
    {
      SeedUsersIfEmpty();
      SeedPlantIfEmpty(now);
    }

    /** The users half of `seedIfEmpty`, guarded by the user count. */
    method SeedUsersIfEmpty()
      requires Valid()
      modifies this`users, this`counters
      ensures Valid()
      ensures old(users) != map[] ==> users == old(users)
      ensures old(users) == map[] ==> users == SeedUsers(SeqValue(old(counters), "users"))
      ensures users != map[]
      ensures counters == if old(users) == map[] then AfterDraws(old(counters), "users", 2) else old(counters)
      ensures forall name :: name != "users" ==> SeqValue(counters, name) == SeqValue(old(counters), name)
    {
      if users == map[] {
        SeedUserRows();
        assert SeqValue(old(counters), "users") + 1 in users;
      }
    }

    /** The sectors, machines and maintenance half of `seedIfEmpty`, guarded
        by the sector count. */
    method SeedPlantIfEmpty(now: Instant)
      requires Valid()
      modifies this`setores, this`maquinas, this`manutencoes, this`counters
      ensures Valid()
      ensures old(setores) != map[] ==>
                setores == old(setores) && maquinas == old(maquinas) && manutencoes == old(manutencoes)
      ensures old(setores) == map[] ==>
                var s := SeqValue(old(counters), "setores");
                var m := SeqValue(old(counters), "maquinas");
                var k := SeqValue(old(counters), "manutencoes");
                && setores == SeedSetores(s)
                && maquinas == old(maquinas) + SeedMaquinas(m, s, now)
                && manutencoes == old(manutencoes) + SeedManutencoes(k, m, now)
                && old(maquinas).Keys !! SeedMaquinas(m, s, now).Keys
                && old(manutencoes).Keys !! SeedManutencoes(k, m, now).Keys
      ensures counters == if old(setores) == map[] then PlantDraws(old(counters)) else old(counters)
      ensures setores != map[]
    {
      if setores == map[] {
        var s, m, k := SeqValue(counters, "setores"), SeqValue(counters, "maquinas"), SeqValue(counters, "manutencoes");
        SeedMaquinasFresh(maquinas, m, s, now);
        SeedManutencoesFresh(manutencoes, k, m, now);
        SeedSetorRows();
        assert s + 1 in setores;
        assert SeqValue(counters, "maquinas") == m && SeqValue(counters, "manutencoes") == k;
        SeedMaquinaRows(s, now);
        assert SeqValue(counters, "manutencoes") == k;
        SeedManutencaoRows(m, now);
      }
    }

    /** The users step of `seedIfEmpty`. */
    method SeedUserRows()
      requires Valid() && users == map[]
      modifies this`users, this`counters
      ensures Valid()
      ensures users == SeedUsers(SeqValue(old(counters), "users"))
      ensures counters == AfterDraws(old(counters), "users", 2)
      ensures forall name :: name != "users" ==> SeqValue(counters, name) == SeqValue(old(counters), name)
    {
      var id1 := GetNextSeq("users");
      InsertUser(UserRow(id1, "Admin", "admin@smpm.local", "123456", "admin"));
      var id2 := GetNextSeq("users");
      InsertUser(UserRow(id2, "Operador", "oper@smpm.local", "123456", "user"));
    }

    /** The sectors step of `seedIfEmpty`. */
    method SeedSetorRows()
      requires Valid() && setores == map[]
      modifies this`setores, this`counters
      ensures Valid()
      ensures setores == SeedSetores(SeqValue(old(counters), "setores"))
      ensures counters == AfterDraws(old(counters), "setores", 3)
      ensures forall name :: name != "setores" ==> SeqValue(counters, name) == SeqValue(old(counters), name)
    {
      var sid1 := GetNextSeq("setores");
      var sid2 := GetNextSeq("setores");
      var sid3 := GetNextSeq("setores");
      InsertSetor(SetorRow(sid1, "Montagem"));
      InsertSetor(SetorRow(sid2, "Pintura"));
      InsertSetor(SetorRow(sid3, "Usinagem"));
    }

    /** The machines step of `seedIfEmpty`, given the counter value `s` the
        seeded sectors were numbered from. */
    method SeedMaquinaRows(s: int, now: Instant)
      requires Valid()
      modifies this`maquinas, this`counters
      ensures Valid()
      ensures var m := SeqValue(old(counters), "maquinas");
              maquinas == old(maquinas) + SeedMaquinas(m, s, now)
      ensures counters == AfterDraws(old(counters), "maquinas", 3)
      ensures forall name :: name != "maquinas" ==> SeqValue(counters, name) == SeqValue(old(counters), name)
    {
      var mid1 := GetNextSeq("maquinas");
      var mid2 := GetNextSeq("maquinas");
      var mid3 := GetNextSeq("maquinas");
      assert mid2 == mid1 + 1 && mid3 == mid1 + 2 && mid1 == SeqValue(old(counters), "maquinas") + 1;
      var r1 := MaquinaRow(mid1, "Prensa Hidráulica", s + 1, Some("ATIVA"), Some("PH-001"), now);
      var r2 := MaquinaRow(mid2, "Esteira XZ", s + 2, Some("MANUTENCAO"), Some("EXZ-234"), now);
      var r3 := MaquinaRow(mid3, "Torno CNC", s + 3, Some("PARADA"), Some("TC-987"), now);
      InsertMaquina(r1);
      InsertMaquina(r2);
      InsertMaquina(r3);
      UnionOfThree(old(maquinas), mid1, r1, mid2, r2, mid3, r3);
    }

    /** The maintenance step of `seedIfEmpty`, given the counter value `m`
        the seeded machines were numbered from. */
    method SeedManutencaoRows(m: int, now: Instant)
      requires Valid()
      modifies this`manutencoes, this`counters
      ensures Valid()
      ensures var k := SeqValue(old(counters), "manutencoes");
              manutencoes == old(manutencoes) + SeedManutencoes(k, m, now)
      ensures counters == AfterDraws(old(counters), "manutencoes", 3)
      ensures forall name :: name != "manutencoes" ==> SeqValue(counters, name) == SeqValue(old(counters), name)
    {
      var man1 := CreateManutencao(ManutencaoRow(0, m + 1, "PREVENTIVA", "Troca de óleo e inspeção",
                                                 Some(now), None, Some("PENDENTE"), Some(2), now));
      var man2 := CreateManutencao(ManutencaoRow(0, m + 2, "CORRETIVA", "Substituição de rolamento",
                                                 Some(now + DayMs), None, Some("EM_ANDAMENTO"), Some(1), now));
      var man3 := CreateManutencao(ManutencaoRow(0, m + 3, "PREVENTIVA", "Ajuste e limpeza",
                                                 None, Some(now - 2 * DayMs), Some("CONCLUIDA"), Some(3), now));
      UnionOfThree(old(manutencoes), man1, SeedManutencoes(man1 - 1, m, now)[man1],
                   man2, SeedManutencoes(man1 - 1, m, now)[man2], man3, SeedManutencoes(man1 - 1, m, now)[man3]);
    }
  }
}
