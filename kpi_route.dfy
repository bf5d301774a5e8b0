/** `GET /api/kpis`: the four dashboard counts over every maintenance
    record. The clock is a parameter holding the instants the handler
    derives from `new Date()`. SQLite's `datetime(...)` keeps whole
    seconds, so every comparison is between instants truncated to the
    second. */
module KpiRoute {
  import opened Values
  import opened Db

  /** Now, the first and last millisecond of today, and the first instant of
      this month and of the next one. */
  datatype Clock = Clock(now: Instant, dayStart: Instant, dayEnd: Instant, monthStart: Instant, nextMonth: Instant)

  /** The relations `setHours` and `new Date(y, m, 1)` guarantee. */
  predicate ClockValid(c: Clock) {
    && c.dayEnd == c.dayStart + DayMs - 1
    && c.dayStart <= c.now <= c.dayEnd
    && c.monthStart <= c.dayStart
    && c.dayEnd < c.nextMonth
  }

  /** `datetime(t)`: the instant truncated to whole seconds. */
  function Sec(t: Instant): int {
    t / 1000
  }

  predicate Aberta(row: ManutencaoRow) {
    row.status == Some("PENDENTE") || row.status == Some("EM_ANDAMENTO")
  }

  predicate Hoje(row: ManutencaoRow, c: Clock) {
    row.dataAgendada.Some? && Sec(c.dayStart) <= Sec(row.dataAgendada.value) <= Sec(c.dayEnd)
  }

  predicate Atrasada(row: ManutencaoRow, c: Clock) {
    row.dataAgendada.Some? && Sec(row.dataAgendada.value) < Sec(c.now) && Aberta(row)
  }

  predicate ConcluidaNoMes(row: ManutencaoRow, c: Clock) {
    && row.status == Some("CONCLUIDA")
    && row.dataRealizada.Some?
    && Sec(c.monthStart) <= Sec(row.dataRealizada.value) < Sec(c.nextMonth)
  }

  /** The response body: exactly the four counts. */
  datatype Kpis = Kpis(abertas: nat, atrasadas: nat, hoje: nat, concluidasMes: nat)

  /** The four counts, each the number of records its predicate selects. */
  function Counts(t: map<int, ManutencaoRow>, c: Clock): (k: Kpis)
    ensures k.abertas == |set id | id in t && Aberta(t[id])|
    ensures k.hoje == |set id | id in t && Hoje(t[id], c)|
    ensures k.atrasadas == |set id | id in t && Atrasada(t[id], c)|
    ensures k.concluidasMes == |set id | id in t && ConcluidaNoMes(t[id], c)|
  {
    Kpis(|set id | id in t && Aberta(t[id])|,
         |set id | id in t && Atrasada(t[id], c)|,
         |set id | id in t && Hoje(t[id], c)|,
         |set id | id in t && ConcluidaNoMes(t[id], c)|)
  }

  /** `GET /`: the counts over the maintenance table. */
  function GetKpis(db: Database, c: Clock): (k: Kpis)
    reads db
    ensures k == Counts(db.manutencoes, c)
  {
    Counts(db.manutencoes, c)
  }

  /** Every overdue record is open, so there are never more overdue records
      than open ones. */
  lemma {:induction false} AtrasadasAtMostAbertas(t: map<int, ManutencaoRow>, c: Clock)
    ensures Counts(t, c).atrasadas <= Counts(t, c).abertas
  {
    var a := set id | id in t && Aberta(t[id]);
    var o := set id | id in t && Atrasada(t[id], c);
    assert o <= a;
    SubsetCard(o, a);
  }

  /** A completed record is counted neither as open nor as overdue. */
  lemma {:induction false} ConcluidaNeverOpen(row: ManutencaoRow, c: Clock)
    requires row.status == Some("CONCLUIDA")
    ensures !Aberta(row) && !Atrasada(row, c)
  {
  }

  /** No count exceeds the number of records. */
  lemma {:induction false} CountsBounded(t: map<int, ManutencaoRow>, c: Clock)
    ensures Counts(t, c).abertas <= |t| && Counts(t, c).atrasadas <= |t|
    ensures Counts(t, c).hoje <= |t| && Counts(t, c).concluidasMes <= |t|
  {
    var k := Counts(t, c);
    assert |t.Keys| == |t|;
    SubsetCard((set id | id in t && Aberta(t[id])), t.Keys);
    SubsetCard((set id | id in t && Atrasada(t[id], c)), t.Keys);
    SubsetCard((set id | id in t && Hoje(t[id], c)), t.Keys);
    SubsetCard((set id | id in t && ConcluidaNoMes(t[id], c)), t.Keys);
  }

  /** An open record scheduled before today started is overdue. */
  lemma {:induction false} ScheduledBeforeTodayIsOverdue(row: ManutencaoRow, c: Clock)
    requires ClockValid(c)
    requires Aberta(row) && row.dataAgendada.Some? && row.dataAgendada.value < c.dayStart - 999
    ensures Atrasada(row, c) && !Hoje(row, c)
  {
  }

  /** A record scheduled for today is never also counted as overdue by a
      clock at the very start of the day. */
  lemma {:induction false} TodayIsNotOverdueAtMidnight(row: ManutencaoRow, c: Clock)
    requires ClockValid(c) && c.now == c.dayStart
    requires Hoje(row, c)
    ensures !Atrasada(row, c)
  {
  }

  /** A subset is no larger than its superset. */
  lemma {:induction false} SubsetCard(a: set<int>, b: set<int>)
    requires a <= b
    ensures |a| <= |b|
  {
    assert a + (b - a) == b;
    assert a * (b - a) == {};
  }
}
