# Maintenance planner (SMPM) — a Dafny model

This project models the core of a small plant-maintenance planner: an
Express backend that keeps sectors (`setores`), machines (`maquinas`),
maintenance records (`manutencoes`) and users, answers a dashboard's KPI
counts and a calendar feed, and a Vue client whose Pinia stores cache
those lists, keep the session, show toasts, guard the routes and format
dates.

The model follows the program's structure, one Dafny module per source
file:

- `Db` holds the tables as maps from id to row inside a `Database` class,
  the per-name id counters of the `counters` collection with
  `getNextSeq`, the schema enums and defaults, and `seedIfEmpty`.
- `ManutencoesBd`, `MaquinaBd`, `SetorBd` and `UserBd` are the
  repositories: queries are functions over the tables, and writes are
  methods that change only the table they name.
- `ManutencoesRoute`, `MaquinaRoute`, `SetoresRoute`, `AuthRoute` and
  `KpiRoute` are the route handlers: each answer is a status and a body
  (`Http`).
- `StoreManutencoes`, `StoreMaquinas`, `StoreSetores`, `StoreKpis`,
  `StoreAuth`, `StoreUi` and `StoreToast` are the client stores. Each is a
  class whose fields are the store's state. Every action takes the server's
  reply as a parameter; `None` stands for a request that failed. The
  machine and sector caches hold nullable entries, because a successful
  reply can carry a `null` body that the store keeps as it is.
- `RouterGuard` holds the route table and the `beforeEach` decision.
  `DateHelpers` holds the calendar helpers over day numbers.
- The shared helper modules are `Values` (JavaScript's missing/null/given
  keys, truthiness, `??`, destructuring defaults, `Number(...)` of a key),
  `Text` (`String(n)`, `Number(s)`, `padStart(2, '0')`, code-unit string
  order), `Keys` (ascending and descending id scans with a WHERE filter),
  `ClientList` (`findIndex`, replace-first, `filter`, `filter().length`)
  and `Toasts`.

Ids are drawn from the counters, and `Database.Valid` keeps every key of a
table within 1..counter. That is why a fresh id never collides and a scan
of 1..counter gives `ORDER BY id`. Instants are integers (milliseconds).
A client-side date is a day number counted from 1970-01-01 plus the
milliseconds into the day. The weekday is `(day + 4) % 7`, and year, month
and day of the month come from the proleptic Gregorian calendar.

Behaviour of the code that a reader might not expect, and that the model
keeps:

- `POST /maquinas` for a missing sector, `PUT /maquinas/:id` that moves a
  machine to a missing sector and `PUT /setores/:id` for a missing id all
  succeed with a `null` body. The machine and sector stores put that `null`
  into their cache, and from then on `String(m.id)` throws in `remover` and in
  any `atualizar` whose search reaches the `null` entry.
- `PUT` and `PATCH` of a missing maintenance record or machine answer 500,
  not 404: the repository throws and the error reaches the default handler.
  An id parameter that is not a number behaves the same way.
- The calendar feed uses an inner join on machines, like the list, so a
  record whose machine is gone has no event. There is no default machine
  name.
- `POST /setores` rejects an empty name, but `SetorBd.create` draws the
  next counter value before the schema refuses the row. A refused create
  still uses up an id.
- The KPI SQL text compares through SQLite's `datetime(...)`, which keeps
  whole seconds, so the model compares every bound after truncation to the
  second.

## Model

| member | source | states |
|---|---|---|
| Db.NextSeq | backend/models/db.js:29-37 | one `getNextSeq(name)` returns the last value plus one (1 for a new name), stores it, and leaves every other name's counter alone |
| Db.FirstDrawIsOne | backend/models/db.js:17-23 | a name never used before yields 1 on its first draw |
| Db.DrawsConsecutive | backend/models/db.js:29-37 | n successive draws return the n consecutive values above the counter, and the counter advances by n |
| Db.DrawsIndependent | backend/models/db.js:29-37 | draws on one name never change another name's counter |
| Db.SchemaDefaultsInEnums | backend/models/db.js:60-79 | the machine status default ATIVA and the maintenance status default PENDENTE lie in their enums |
| Db.SeedReferencesResolve | backend/models/db.js:125-156 | every seeded machine points at a seeded sector, every seeded record at a seeded machine, and the seeded statuses and types lie in the schema enums |
| Db.Database.GetNextSeq | backend/models/db.js:29-37 | the counters step as `NextSeq` says and the value returned is above every id in use |
| Db.Database.CreateMaquina | backend/models/MaquinaBd.js:60-64 | the INSERT's id is the next 'maquinas' value, not yet in use, and the row is stored under it with nothing else changed |
| Db.Database.CreateManutencao | backend/models/manutencoesBd.js:68-73 | the INSERT's id is the next 'manutencoes' value, not yet in use, and the row is stored under it with nothing else changed |
| Db.Database.SeedIfEmpty | backend/models/db.js:107-158 | users are seeded only into an empty users table, and sectors, machines and records only when there are no sectors; afterwards neither table is empty, so a second run adds nothing; the id counters advance by exactly the rows drawn (two 'users', three each of 'setores', 'maquinas', 'manutencoes') |
| Db.SeedCountersValues | backend/models/db.js:107-158 | after seeding, 'users' has moved by two or not at all, 'setores', 'maquinas' and 'manutencoes' by three or not at all, and every other counter is where it was |
| Db.Database.SeedUsersIfEmpty | backend/models/db.js:109-119 | the user count guards the two seeded users; 'users' advances by two when they are seeded and no counter moves otherwise |
| Db.Database.SeedPlantIfEmpty | backend/models/db.js:122-157 | the sector count guards the three sectors, machines and records, added under fresh ids; 'setores', 'maquinas' and 'manutencoes' advance by three each when seeded and no counter moves otherwise |
| Db.Database.SeedUserRows | backend/models/db.js:111-118 | Admin and Operador are stored under the next two 'users' values, and 'users' advances by exactly two |
| Db.Database.SeedSetorRows | backend/models/db.js:125-130 | Montagem, Pintura and Usinagem are stored under the next three 'setores' values, and 'setores' advances by exactly three |
| Db.Database.SeedMaquinaRows | backend/models/db.js:133-138 | the three machines are added under the next three 'maquinas' values, each pointing at its seeded sector, and 'maquinas' advances by exactly three |
| Db.Database.SeedManutencaoRows | backend/models/db.js:141-156 | the three records are added under the next three 'manutencoes' values with the dates relative to now, and 'manutencoes' advances by exactly three |
| ManutencoesBd.FirstDate | backend/models/manutencoesBd.js:9 | `a \|\| b \|\| c` over nullable dates picks the first present one |
| ManutencoesBd.Normalized | backend/models/manutencoesBd.js:7-22 | every column is carried over unchanged and `data` is the scheduled date, else the completion date, else the creation time |
| ManutencoesBd.Normalize | backend/models/manutencoesBd.js:8 | a missing row gives null, a present one its normalized record, whose `data` is the first of the scheduled date, completion date and creation time that is set |
| ManutencoesBd.NormalizedInjective | backend/models/manutencoesBd.js:10-21 | two rows normalize to the same record only when they are equal |
| ManutencoesBd.NormalizeAll | backend/models/manutencoesBd.js:45 | `rows.map(normalize)` keeps length and order |
| ManutencoesBd.ListIds | backend/models/manutencoesBd.js:25-46 | the listed ids are exactly the records that pass the join on machines and every supplied filter, in descending id order |
| ManutencoesBd.List | backend/models/manutencoesBd.js:25-46 | the result is sound (each entry passes the filters and is its stored row normalized), complete (every passing record appears) and ordered newest id first |
| ManutencoesBd.ListUnfiltered | backend/models/manutencoesBd.js:36-45 | without filters a record is listed exactly when its machine exists |
| ManutencoesBd.FiltersConjoin | backend/models/manutencoesBd.js:29-33 | a record passes the combined filters exactly when it passes each supplied filter alone |
| ManutencoesBd.GetById | backend/models/manutencoesBd.js:49-52 | present exactly when the id is stored, and then it is that row normalized, with `data` filled in |
| ManutencoesBd.NewRow | backend/models/manutencoesBd.js:57-73 | `Number(maquinaId)`, `tipo` and `descricao` are stored; status defaults to PENDENTE and dates and priority to null, only for a missing key |
| ManutencoesBd.Create | backend/models/manutencoesBd.js:55-76 | a payload missing a schema-required field is refused with nothing changed; otherwise the row is stored under the next counter value, which no record used, and returned normalized |
| ManutencoesBd.MergeRow | backend/models/manutencoesBd.js:84-90 | a missing or null key keeps the stored value, a given key replaces it, id and creation time stay |
| ManutencoesBd.MergeEmptyIsIdentity | backend/models/manutencoesBd.js:80-90 | `update(id, {})` stores the record unchanged |
| ManutencoesBd.MergeIdempotent | backend/models/manutencoesBd.js:84-90 | applying the same update twice equals applying it once |
| ManutencoesBd.Update | backend/models/manutencoesBd.js:79-103 | a missing id fails with nothing changed; otherwise only that record becomes the merge and it is returned |
| ManutencoesBd.PatchRow | backend/models/manutencoesBd.js:110-112 | only status (when the new one is truthy) and the scheduled date (when given) can differ from the stored row |
| ManutencoesBd.Patch | backend/models/manutencoesBd.js:106-123 | a missing id fails with nothing changed; otherwise only that record's status and scheduled date change |
| ManutencoesBd.Remove | backend/models/manutencoesBd.js:126-129 | the id is absent afterwards, every other record stays, and the result is `{ ok: true }` |
| MaquinaBd.Expanded | backend/models/MaquinaBd.js:7-20 | the columns are carried over, and `setor` is `{ id: setorId, nome }` exactly when the joined name is truthy |
| MaquinaBd.WithSetor | backend/models/MaquinaBd.js:8 | a missing row gives null |
| MaquinaBd.ListIds | backend/models/MaquinaBd.js:23-43 | the listed ids are exactly the machines whose sector exists and that match `Number(setorId)` when the filter is given, ascending |
| MaquinaBd.List | backend/models/MaquinaBd.js:23-43 | the result is sound (each entry is the joined machine), complete and ascending by id |
| MaquinaBd.ListBySetor | backend/models/MaquinaBd.js:27-30 | the filter `String(k)` for an existing sector k lists exactly the machines of sector k |
| MaquinaBd.GetById | backend/models/MaquinaBd.js:46-55 | present exactly when the machine and its sector exist, and then it is the joined machine |
| MaquinaBd.NewRow | backend/models/MaquinaBd.js:58-65 | status defaults to ATIVA and serie to null, only for a missing key |
| MaquinaBd.Create | backend/models/MaquinaBd.js:58-66 | refused with nothing changed without name or numeric sector; otherwise stored under a fresh counter value, and the result is null exactly when the sector is missing |
| MaquinaBd.MergeRow | backend/models/MaquinaBd.js:74-77 | a missing or null key keeps the stored value, a given key replaces it |
| MaquinaBd.MergeEmptyIsIdentity | backend/models/MaquinaBd.js:74-77 | an empty body stores the machine unchanged |
| MaquinaBd.MergeIdempotent | backend/models/MaquinaBd.js:74-77 | applying the same update twice equals applying it once |
| MaquinaBd.Update | backend/models/MaquinaBd.js:69-86 | a machine that cannot be read through the join fails with nothing changed; otherwise only it becomes the merge |
| MaquinaBd.Remove | backend/models/MaquinaBd.js:89-92 | the id is absent afterwards, every other machine stays, `{ ok: true }` |
| SetorBd.Insert | backend/models/SetorBd.js:9 | insertion adds exactly one sector to the multiset |
| SetorBd.InsertSorted | backend/models/SetorBd.js:9 | inserting into a name-sorted list keeps it sorted |
| SetorBd.SortByNome | backend/models/SetorBd.js:9 | the result is sorted by name and a permutation of the input |
| SetorBd.Scan | backend/models/SetorBd.js:9 | every stored sector exactly once, ascending by id |
| SetorBd.List | backend/models/SetorBd.js:7-11 | the sectors sorted by name, a permutation of the stored ones |
| SetorBd.ListHoldsEveryStoredSetor | backend/models/SetorBd.js:7-11 | a sector is listed exactly when it is stored |
| SetorBd.GetById | backend/models/SetorBd.js:14-16 | present exactly when stored, and then it is that sector |
| SetorBd.Create | backend/models/SetorBd.js:19-23 | the counter always advances; a truthy name is stored under the new value and returned, an empty one stores nothing |
| SetorBd.Update | backend/models/SetorBd.js:26-29 | only that sector's name changes and it is returned; a missing id changes nothing and gives null |
| SetorBd.Remove | backend/models/SetorBd.js:32-35 | the id is absent afterwards, every other sector stays, `{ ok: true }` |
| UserBd.Public | backend/models/UserBd.js:10 | every column but the password |
| UserBd.FindByEmailPassword | backend/models/UserBd.js:7-15 | a user is found exactly when one has both that email and that password; the one returned matches, has no password, and has the smallest such id |
| UserBd.FindByUniqueEmail | backend/models/UserBd.js:7-15 | with unique emails the lookup finds the user exactly when the password is right |
| UserBd.List | backend/models/UserBd.js:18-20 | every user without password, ascending by id |
| Http.JsonOrFailure | backend/routers/manutencoesRoute.js:81-86 | a result is sent with 200, a thrown error reaches the error handler as 500 |
| ManutencoesRoute.GetList | backend/routers/manutencoesRoute.js:14-20 | the query-string filters go to `list` unchanged, answered with 200 |
| ManutencoesRoute.GetOne | backend/routers/manutencoesRoute.js:23-29 | 404 with its message exactly when `Number(id)` is not a stored record, else 200 with it |
| ManutencoesRoute.GetOneFindsStored | backend/routers/manutencoesRoute.js:25-27 | looking up the text of a stored id finds that record |
| ManutencoesRoute.EventOf | backend/routers/manutencoesRoute.js:49-61 | `start` prefers the scheduled date and `end` the completion date, each falling back on the other and then the creation time; title is `tipo - machine`; id and status copied |
| ManutencoesRoute.EventSpan | backend/routers/manutencoesRoute.js:51-52 | with both dates the event runs from scheduled to completed; with one date, or none, it starts and ends at the same instant |
| ManutencoesRoute.CalendarEvents | backend/routers/manutencoesRoute.js:32-65 | one event per record whose machine exists, each built from its row and machine name, newest id first |
| ManutencoesRoute.CalendarShowsEveryJoinedRecord | backend/routers/manutencoesRoute.js:43-56 | every record whose machine exists appears, titled with that machine's name |
| ManutencoesRoute.PostValidHasRequired | backend/routers/manutencoesRoute.js:72 | a body that passes the route's check passes the schema's required fields |
| ManutencoesRoute.Post | backend/routers/manutencoesRoute.js:68-78 | 400 with its message and nothing created when `maquinaId`, `tipo` or `descricao` is falsy; otherwise 201 with the record stored under the next 'manutencoes' value, which is the only counter that moves |
| ManutencoesRoute.Put | backend/routers/manutencoesRoute.js:81-86 | the body (or `{}`) is merged into the record and it is sent with 200; a missing record gives 500 and no change |
| ManutencoesRoute.Patch | backend/routers/manutencoesRoute.js:89-94 | only status and scheduled date change, sent with 200; a missing record gives 500 and no change |
| ManutencoesRoute.Delete | backend/routers/manutencoesRoute.js:97-102 | always 204, and the record is gone afterwards |
| MaquinaRoute.GetList | backend/routers/maquinaRoute.js:11-17 | the `setorId` filter goes to `list` unchanged, answered with 200 |
| MaquinaRoute.GetOne | backend/routers/maquinaRoute.js:20-26 | 404 with its message exactly when `Number(id)` is not a machine whose sector exists, else 200 with the joined machine |
| MaquinaRoute.Post | backend/routers/maquinaRoute.js:29-37 | 400 with its message and nothing created when `nome` or `setorId` is falsy; otherwise 201 with what `getById` gives for the next 'maquinas' value, which is the only counter that moves |
| MaquinaRoute.Put | backend/routers/maquinaRoute.js:40-45 | the body (or `{}`) is merged and the machine sent with 200; a machine that cannot be read gives 500 and no change |
| MaquinaRoute.Delete | backend/routers/maquinaRoute.js:48-53 | always 204, and the machine is gone afterwards |
| SetoresRoute.GetList | backend/routers/setoresRoute.js:11-16 | 200 with the stored sectors sorted by name, the same multiset of rows the table holds, so each exactly once |
| SetoresRoute.GetOne | backend/routers/setoresRoute.js:19-25 | 500 when `Number(id)` is `NaN`; 404 with its message exactly when it is a number that is not a stored sector; otherwise 200 with that sector |
| SetoresRoute.Post | backend/routers/setoresRoute.js:28-36 | 400 and no change for a falsy name; otherwise 201 with the sector stored under the next 'setores' value, which is the only counter that moves |
| SetoresRoute.Put | backend/routers/setoresRoute.js:39-47 | 400 and no change for a falsy name; 500 and no change when `Number(id)` is `NaN`; otherwise only `nome` goes to `update`, answered with 200 and the sector or null |
| SetoresRoute.Delete | backend/routers/setoresRoute.js:50-55 | 500 and no change when `Number(id)` is `NaN`; otherwise 204, and the sector is gone afterwards |
| AuthRoute.Users | backend/routers/authRoute.js:13-21 | at most one user; `[]` when email or password is missing or nothing matches; otherwise the matching user without password |
| AuthRoute.AllUsers | backend/routers/authRoute.js:24-28 | the full listing, holding every stored user without password |
| KpiRoute.Counts | backend/routers/kpiRoute.js:14-53 | each count is the number of records its condition selects: open status, scheduled within today, scheduled before now while open, concluded within this month |
| KpiRoute.GetKpis | backend/routers/kpiRoute.js:56 | the response is exactly the four counts over the maintenance table |
| KpiRoute.AtrasadasAtMostAbertas | backend/routers/kpiRoute.js:32-39 | every overdue record is open, so there are never more overdue than open records |
| KpiRoute.ConcluidaNeverOpen | backend/routers/kpiRoute.js:17-37 | a CONCLUIDA record is counted neither as open nor as overdue |
| KpiRoute.CountsBounded | backend/routers/kpiRoute.js:14-53 | no count exceeds the number of records |
| KpiRoute.ScheduledBeforeTodayIsOverdue | backend/routers/kpiRoute.js:21-39 | an open record scheduled before the start of today (by a whole second) is overdue and not counted for today |
| KpiRoute.TodayIsNotOverdueAtMidnight | backend/routers/kpiRoute.js:21-39 | at the first instant of the day nothing scheduled for today is overdue |
| ClientList.FindIndex | projeto_somativa/src/store/manutencoes.js:51 | the first position whose key matches, or -1 exactly when none does |
| ClientList.UpdateFirst | projeto_somativa/src/store/manutencoes.js:51-52 | only the first match is replaced and the length stays; no match leaves the list as it was |
| ClientList.FindIndexOrThrow | projeto_somativa/src/store/maquinas.js:43 | the scan throws exactly when an entry whose key cannot be read comes before the first match; otherwise it is `findIndex` |
| ClientList.WithoutOrThrow | projeto_somativa/src/store/maquinas.js:50 | the filter throws exactly when some entry's key cannot be read; otherwise it is the plain filter |
| ClientList.Without | projeto_somativa/src/store/manutencoes.js:75 | exactly the entries whose key differs are kept |
| ClientList.WithoutAppend | projeto_somativa/src/store/manutencoes.js:75 | filtering distributes over concatenation, so the kept entries stay in order |
| ClientList.WithoutAbsent | projeto_somativa/src/store/manutencoes.js:75 | filtering an absent id changes nothing |
| ClientList.WithoutIdempotent | projeto_somativa/src/store/manutencoes.js:75 | removing twice equals removing once |
| ClientList.WithoutSingle | projeto_somativa/src/store/manutencoes.js:75 | removing an id held by one entry drops that entry alone |
| ClientList.Count | projeto_somativa/src/store/kpis.js:27-38 | `filter(p).length` is at most the length, zero exactly when nothing passes, full exactly when all pass |
| ClientList.CountDisjoint | projeto_somativa/src/store/kpis.js:27-28 | two conditions no entry meets together count at most the length between them |
| ClientList.CountMonotone | projeto_somativa/src/store/kpis.js:29 | a weaker condition counts at least as many entries |
| StoreManutencoes.AsArray | projeto_somativa/src/store/manutencoes.js:6-11 | an array is returned unchanged, `{ data: array }` is unwrapped, anything else gives `[]` |
| StoreManutencoes.FiltradasOf | projeto_somativa/src/store/manutencoes.js:20-25 | exactly the records that pass every non-empty filter field, never more than the list |
| StoreManutencoes.FiltradasAppend | projeto_somativa/src/store/manutencoes.js:20-25 | the view distributes over concatenation, so it keeps the list's order |
| StoreManutencoes.FiltradasUnfiltered | projeto_somativa/src/store/manutencoes.js:22-24 | empty filter fields keep the whole list |
| StoreManutencoes.MaquinaFilterSelects | projeto_somativa/src/store/manutencoes.js:24 | the machine filter `String(k)` keeps exactly the records of machine k |
| StoreManutencoes.SetorFilterHidesBackendRecords | projeto_somativa/src/store/manutencoes.js:23 | as written, a non-empty sector filter hides every record without a `setor` key |
| StoreManutencoes.FiltradasBySetor | projeto_somativa/src/store/manutencoes.js:20-25 | the view with the sector filter applied through the record's machine |
| StoreManutencoes.SetorFilterBySetorSelects | projeto_somativa/src/store/manutencoes.js:23 | with that filter, `String(k)` keeps exactly the records whose machine is in sector k |
| StoreManutencoes.MudarStatusTouchesOnlyStatus | projeto_somativa/src/store/manutencoes.js:60-61 | only the matching record's status changes and every other record is untouched |
| StoreManutencoes.ManutencoesStore.constructor | projeto_somativa/src/store/manutencoes.js:14-17 | an empty list and empty filters |
| StoreManutencoes.ManutencoesStore.Carregar | projeto_somativa/src/store/manutencoes.js:29-32 | the list becomes `asArray` of the reply |
| StoreManutencoes.ManutencoesStore.Criar | projeto_somativa/src/store/manutencoes.js:39-46 | the created record is appended at the end |
| StoreManutencoes.ManutencoesStore.Atualizar | projeto_somativa/src/store/manutencoes.js:48-54 | the first record whose `String(id)` matches is replaced; no match leaves the list |
| StoreManutencoes.ManutencoesStore.MudarStatus | projeto_somativa/src/store/manutencoes.js:56-63 | the first match takes the reply's status and nothing else changes |
| StoreManutencoes.ManutencoesStore.MoverData | projeto_somativa/src/store/manutencoes.js:65-71 | the first match takes the reply's `data` and nothing else changes |
| StoreManutencoes.ManutencoesStore.Remover | projeto_somativa/src/store/manutencoes.js:73-76 | after the delete, every record with that id is dropped and the rest keep their order |
| StoreMaquinas.NumberField | projeto_somativa/src/store/maquinas.js:33 | `Number(setorId)` as sent in JSON: a numeric text becomes its number, null becomes 0, missing or non-numeric becomes null |
| StoreMaquinas.RequestBody | projeto_somativa/src/store/maquinas.js:32-34 | the form is sent as it is, except that `setorId` goes through `Number` |
| StoreMaquinas.RequestBodyPassesPost | projeto_somativa/src/store/maquinas.js:32-34 | a filled-in name and the text of a non-zero sector id pass the server's POST check with that id |
| StoreMaquinas.MaquinasStore.constructor | projeto_somativa/src/store/maquinas.js:6-10 | an empty list, not loading, no error |
| StoreMaquinas.MaquinasStore.Carregar | projeto_somativa/src/store/maquinas.js:13-24 | loading ends false; a reply replaces the list and clears the error; a failure sets 'Falha ao carregar máquinas' and keeps the list |
| StoreMaquinas.MaquinasStore.Criar | projeto_somativa/src/store/maquinas.js:30-37 | sends the converted body and appends the returned body as it is, `null` included (the server answers `null` for a missing sector) |
| StoreMaquinas.MaquinasStore.Atualizar | projeto_somativa/src/store/maquinas.js:39-46 | the first id match is replaced by the returned body, `null` included; no match leaves the list; a `null` entry met before a match makes the action reject with the list unchanged |
| StoreMaquinas.MaquinasStore.Remover | projeto_somativa/src/store/maquinas.js:48-51 | every entry with that id is dropped and the rest keep their order; any `null` entry makes the filter throw and the list stays |
| StoreMaquinas.NullEntryBlocksLaterActions | projeto_somativa/src/store/maquinas.js:35-50 | after a `null` body is appended, every removal throws, and so does every update of an id no earlier entry holds |
| StoreSetores.SetoresStore.constructor | projeto_somativa/src/store/setores.js:6-10 | an empty list, not loading, no error |
| StoreSetores.SetoresStore.Carregar | projeto_somativa/src/store/setores.js:13-24 | loading ends false; a reply replaces the list and clears the error; a failure sets 'Falha ao carregar setores' and keeps the list |
| StoreSetores.SetoresStore.Criar | projeto_somativa/src/store/setores.js:30-35 | the returned sector is appended at the end |
| StoreSetores.SetoresStore.Atualizar | projeto_somativa/src/store/setores.js:37-42 | the first id match is replaced by the returned body, `null` included (the server answers `null` for a missing id); no match leaves the list; a `null` entry met before a match makes the action reject with the list unchanged |
| StoreSetores.SetoresStore.Remover | projeto_somativa/src/store/setores.js:44-47 | every entry with that id is dropped and the rest keep their order; any `null` entry makes the filter throw and the list stays |
| StoreSetores.RemoverDropsOne | projeto_somativa/src/store/setores.js:46 | with no `null` entries and ids unique in the cache, removing one succeeds and drops that entry alone |
| StoreSetores.NullBodyBlocksRemover | projeto_somativa/src/store/setores.js:40-46 | once an update has stored a `null` body, every later removal throws |
| StoreKpis.MonthPrefix | projeto_somativa/src/store/kpis.js:32-35 | the year's digits, a dash, the 1-based month read back from two digits, a dash |
| StoreKpis.Fallback | projeto_somativa/src/store/kpis.js:24-40 | `abertas` counts status 'aberta', `atrasadas` 'atrasada', `hoje` today's date or status 'hoje', `concluidasMes` 'concluida' dated with the month prefix |
| StoreKpis.FallbackBounded | projeto_somativa/src/store/kpis.js:27-38 | open, late and concluded are disjoint, so any two of them sum to at most the number of records, and `hoje` is at most that number |
| StoreKpis.FallbackHojeCountsStatus | projeto_somativa/src/store/kpis.js:29 | every record with status 'hoje' counts for today whatever its date |
| StoreKpis.FmtYMDSplits | projeto_somativa/src/store/kpis.js:32-35 | a `fmtYMD` date is its month prefix followed by the two-digit day |
| StoreKpis.MonthPrefixInjective | projeto_somativa/src/store/kpis.js:32-35 | different months of unsigned years have different prefixes |
| StoreKpis.MonthPrefixOfPrefix | projeto_somativa/src/store/kpis.js:37 | a month prefix that begins a date of another month prefix is that same prefix |
| StoreKpis.StartsWithMonthPrefix | projeto_somativa/src/store/kpis.js:37 | a dated month prefix starts with a month prefix exactly when both name the same year and month |
| StoreKpis.ConcluidaNoMesIffSameMonth | projeto_somativa/src/store/kpis.js:36-38 | a concluded record dated by `fmtYMD` counts exactly when its date lies in the given year and month |
| StoreKpis.KpisStore.constructor | projeto_somativa/src/store/kpis.js:6-10 | no data, not loading, no error |
| StoreKpis.KpisStore.Carregar | projeto_somativa/src/store/kpis.js:13-49 | loading ends false; the `/kpis` reply becomes the data, else the fallback counts with no error, else the error 'Não foi possível obter KPIs.' and no data |
| StoreAuth.FallbackUsersAreSeedUsers | projeto_somativa/src/store/auth.js:49-52 | the built-in accounts are the users the backend seeds into an empty database |
| StoreAuth.FindFallback | projeto_somativa/src/store/auth.js:53 | an account is found exactly when one has both credentials, and it has them |
| StoreAuth.FallbackAccepts | projeto_somativa/src/store/auth.js:49-53 | without a server exactly the two built-in email addresses with '123456' sign in |
| StoreAuth.Adopt | projeto_somativa/src/store/auth.js:36-38 | the server's user is kept with its role, or 'user' when the role is empty |
| StoreAuth.Token | projeto_somativa/src/store/auth.js:37 | the token is non-empty and starts with `mock.` |
| StoreAuth.AuthStore.constructor | projeto_somativa/src/store/auth.js:23-26 | the session starts from the saved one, an empty token counting as none |
| StoreAuth.AuthStore.Login | projeto_somativa/src/store/auth.js:31-63 | a non-empty server reply signs in its first user; else a matching built-in account signs in without its password; else `{ ok: false, error: 'Credenciais inválidas' }` with the session unchanged; every success leaves the store authenticated |
| StoreAuth.AuthStore.Logout | projeto_somativa/src/store/auth.js:65-69 | user and token are null, so the store is not authenticated |
| RouterGuard.BeforeEach | projeto_somativa/src/router/index.js:35-42 | a public route is allowed; a route that requires authentication redirects to login with `redirect` set to the target path exactly when the visitor is not authenticated; everything else is allowed |
| RouterGuard.AuthedAlwaysAllowed | projeto_somativa/src/router/index.js:36-41 | an authenticated visitor is never redirected |
| RouterGuard.OnlyLoginIsPublic | projeto_somativa/src/router/index.js:14-26 | only /login is public and every other named route requires authentication |
| RouterGuard.SignedOutGoesToLogin | projeto_somativa/src/router/index.js:15-40 | signed out, every named route but login redirects to login with its path, and login itself is allowed, so the redirect cannot loop |
| DateHelpers.Weekday | projeto_somativa/src/helpers/date.js:14 | `getDay()` lies in 0..6 |
| DateHelpers.WeekdayPeriodic | projeto_somativa/src/helpers/date.js:34-35 | seven days later is the same weekday |
| DateHelpers.DaysBefore | projeto_somativa/src/helpers/date.js:5-7 | the days before month `m` lie between 28·m and 31·m |
| DateHelpers.MonthsFillYear | projeto_somativa/src/helpers/date.js:5-7 | the twelve month lengths sum to the year's length |
| DateHelpers.SplitYear | projeto_somativa/src/helpers/date.js:5 | a day number falls in exactly one year, at a day inside it |
| DateHelpers.MonthFrom | projeto_somativa/src/helpers/date.js:6 | the month found holds the day of the year |
| DateHelpers.CivilOf | projeto_somativa/src/helpers/date.js:5-7 | the month lies in 0..11, the day of the month within the month's length, and the day number reads back from the date |
| DateHelpers.FmtYMD | projeto_somativa/src/helpers/date.js:4-9 | the year, a dash, the 1-based month and the day of the month each read back from two digits |
| DateHelpers.FmtYMDInjective | projeto_somativa/src/helpers/date.js:4-9 | different days format differently |
| DateHelpers.AddDays | projeto_somativa/src/helpers/date.js:25-26 | n days later at the same time of day |
| DateHelpers.StartOfWeek | projeto_somativa/src/helpers/date.js:12-19 | the result is at midnight, at most six days earlier, on the weekday `weekStartsOn` (1 by default) |
| DateHelpers.StartOfWeekIdempotent | projeto_somativa/src/helpers/date.js:12-19 | starting the week again from its first day stays there |
| DateHelpers.StartOfWeekCovers | projeto_somativa/src/helpers/date.js:11-19 | every date lies among the seven days from its week's start |
| DateHelpers.WeekDays | projeto_somativa/src/helpers/date.js:22-30 | exactly seven dates, the i-th being the start plus i days |
| DateHelpers.LabelShort | projeto_somativa/src/helpers/date.js:33-36 | the weekday's name from the table, a space and the two-digit day of the month |
| DateHelpers.LabelShortWeekly | projeto_somativa/src/helpers/date.js:33-36 | a week later the short label names the same weekday |
| DateHelpers.LabelLong | projeto_somativa/src/helpers/date.js:39-42 | the two-digit day, the month's name from the table and the year, which reads back |
| Toasts.IssuedAppend | projeto_somativa/src/store/ui.js:13-14 | appending under the next id keeps ids rising and below the counter |
| Toasts.IssuedWithout | projeto_somativa/src/store/ui.js:24-26 | removing keeps ids rising and below the counter |
| Toasts.ToastThenRemove | projeto_somativa/src/store/ui.js:17-19 | removing the toast just added restores the queue |
| StoreUi.UiStore.constructor | projeto_somativa/src/store/ui.js:4-9 | no toasts and the counter at 1 |
| StoreUi.UiStore.Toast | projeto_somativa/src/store/ui.js:12-20 | the new id is above every id issued before; `{ id, type, message }` goes at the end with type 'info' by default, and its removal is scheduled after the timeout (3000 ms by default) |
| StoreUi.UiStore.Success | projeto_somativa/src/store/ui.js:21 | a 'success' toast, 3000 ms unless given |
| StoreUi.UiStore.Error | projeto_somativa/src/store/ui.js:22 | an 'error' toast, 3000 ms unless given |
| StoreUi.UiStore.Info | projeto_somativa/src/store/ui.js:23 | an 'info' toast, 3000 ms unless given |
| StoreUi.UiStore.Remove | projeto_somativa/src/store/ui.js:24-26 | exactly the toasts with that id go and the rest keep their order |
| StoreToast.ToastStore.constructor | projeto_somativa/src/store/toast.js:4-8 | no toasts and the counter at 1 |
| StoreToast.ToastStore.Push | projeto_somativa/src/store/toast.js:11-15 | the new id is above every id issued before; the entry goes at the end with type 'info' by default and its removal is scheduled |
| StoreToast.ToastStore.Success | projeto_somativa/src/store/toast.js:16 | a 'success' toast, 3000 ms unless given |
| StoreToast.ToastStore.Error | projeto_somativa/src/store/toast.js:17 | an 'error' toast, 5000 ms unless given |
| StoreToast.ToastStore.Info | projeto_somativa/src/store/toast.js:18 | an 'info' toast, 3000 ms unless given |
| StoreToast.ToastStore.Remove | projeto_somativa/src/store/toast.js:19-21 | exactly the toasts with that id go and the rest keep their order |

## Left out

- The Mongoose connection and `initDb`'s readiness checks are not modelled, being I/O. So is the database engine's enforcement of indexes and `unique`.
- SQL text and parameter arrays are not modelled: queries are predicates over the tables, and updates are map updates.
- Ids come from the counters. SQLite's `lastID`, which the SQL-style repositories read, is not modelled.
- Atomicity of `findOneAndUpdate` under concurrent requests is not modelled: `getNextSeq` is a sequential counter.
- Schema enum validation is not modelled: the repositories store the values they are given, and only the schema's required fields refuse a create.
- `updatedAt` and `createdAt` timestamps come from a `now` parameter; `updatedAt` is not kept.
- The SQL helpers `all`, `get` and `run` are imported by `backend/models/MaquinaBd.js:4`, `backend/models/manutencoesBd.js:4`, `backend/models/UserBd.js:4`, `backend/routers/kpiRoute.js:8` and `backend/routers/manutencoesRoute.js:11`, but `backend/models/db.js:170-177` exports only `initDb`, `getNextSeq` and the four Mongoose models. As written, every call to them throws a `TypeError`, so `GET /api/kpis`, `GET /api/users`, `GET /api/_users`, the calendar feed and every machine and maintenance route reaching them answer 500. The model does not keep that failure: `MaquinaBd`, `ManutencoesBd`, `UserBd`, `KpiRoute`, `AuthRoute` and `ManutencoesRoute` give each query the table semantics its SQL text states.
- Express routing, CORS, dotenv and `backend/server.js` are not modelled. An error passed to `next(e)` appears only as a 500 status, and the text in its `Error` body (such as `SetoresRoute.IdCastError`) stands in for a body the handler's output does not fix.
- The stores' HTTP calls through axios are not modelled: each reply is a parameter. `buscarPorId` in the three list stores only returns its reply and is not modelled.
- `localStorage` in the auth store is not modelled: the constructor takes the saved user and token, and saving and clearing are not kept.
- `Date.now()` is a parameter of `Login`, and the token's text is only known to be non-empty and to start with `mock.`.
- `setTimeout` firing is not modelled: the toast stores record each scheduled removal (id and delay) in `timers`.
- Each toast store's module-level id counter is a field of that store's class. Sharing it between instances is not modelled.
- Real `Date` and time-zone behaviour is not modelled. `hojeISO` (a UTC date) and the local year and month of the KPI fallback are independent parameters, and daylight-saving shifts in `weekDays` are ignored.
- JavaScript numbers are integers here. `NaN` is `None`. `Number(text)` accepts an optional sign and digits ("" is 0); whitespace, decimals, hexadecimal and exponents are not modelled.
- SetoresRoute.GetOne, SetoresRoute.Put, SetoresRoute.Delete: a `NaN` id fails Mongoose's cast of the numeric `id` path and reaches the error handler as a 500. Because decimals such as "1.5" are `NaN` in this model, the model answers 500 for them where the server would find no sector (404, null or 204).
- Request bodies carry `maquinaId`/`setorId` as numbers and the PATCH `data` as an instant. A number sent as text to the repositories is not modelled.
- The KPI store's `/kpis` reply is the four counts; a reply of another shape is not modelled.
- `console` logging is not modelled. `projeto_somativa/src/main.js`, `projeto_somativa/src/services/api.js` and `backend/models/authBd.js` (a one-line delegation to `findByEmailPassword`) are not modelled.
- SetorBd.List: states the name order and that the result is a permutation of the stored sectors, but not the order among sectors with equal names, which the database leaves unspecified.
- StoreKpis.ConcluidaNoMesIffSameMonth: proved for years written without a sign (year 0 and later) only.
- DateHelpers.StartOfWeek: the weekday and distance guarantees are stated for `weekStartsOn` in 0..6, the values the helper is written for.

## Findings

| source | as written | input that shows it | evidently intended | confidence | as-written member | corrected member |
|---|---|---|---|---|---|---|
| projeto_somativa/src/store/manutencoes.js:23 | the sector filter compares `m.setor`, a key the backend's records never carry | any list from `GET /manutencoes` with the sector filter set to '1' shows nothing | keep the records whose machine belongs to the chosen sector | medium, not executed | StoreManutencoes.SetorFilterHidesBackendRecords | StoreManutencoes.SetorFilterBySetorSelects |
