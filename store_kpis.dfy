/** The client's KPI store: `carregar` reads `/kpis`, and when that request
    fails it counts four indicators itself from `/manutencoes`. The two
    replies are parameters (None for a request that fails), as are today's
    `YYYY-MM-DD` and the current year and month. */
module StoreKpis {
  import opened Values
  import opened Text
  import opened ClientList
  import opened DateHelpers
  import KpiRoute

  type Kpis = KpiRoute.Kpis

  /** The keys of a record from `/manutencoes` that the fallback reads. */
  datatype Record = Record(status: Option<string>, data: Option<string>)

  const ErroKpis: string := "Não foi possível obter KPIs."

  predicate IsAberta(m: Record) {
    m.status == Some("aberta")
  }

  predicate IsAtrasada(m: Record) {
    m.status == Some("atrasada")
  }

  /** `m.data === hojeISO || m.status === 'hoje'`. */
  predicate IsHoje(m: Record, hojeISO: string) {
    m.data == Some(hojeISO) || m.status == Some("hoje")
  }

  /** `` `${y}-${m}-` `` with the 1-based month on two digits. */
  function MonthPrefix(year: int, month0: int): (r: string)
    requires 0 <= month0 < 12
    ensures var y := ShowInt(year);
            && |r| == |y| + 4 && r[..|y|] == y && r[|y|] == '-' && r[|y| + 3] == '-'
            && AllDigits(r[|y| + 1..|y| + 3]) && DigitsValue(r[|y| + 1..|y| + 3]) == month0 + 1
  {
    var y := ShowInt(year);
    var r := y + "-" + Pad2(month0 + 1) + "-";
    assert r[..|y|] == y && r[|y| + 1..|y| + 3] == Pad2(month0 + 1);
    r
  }

  /** `x.status === 'concluida' && String(x.data || '').startsWith(prefix)`. */
  predicate IsConcluidaNoMes(m: Record, prefix: string) {
    m.status == Some("concluida") && StartsWith(m.data.GetOr(""), prefix)
  }

  /** The four counts the fallback computes over the records. */
  function Fallback(mans: seq<Record>, hojeISO: string, year: int, month0: int): (k: Kpis)
    requires 0 <= month0 < 12
    ensures k.abertas == Count(mans, IsAberta)
    ensures k.atrasadas == Count(mans, IsAtrasada)
    ensures k.hoje == Count(mans, m => IsHoje(m, hojeISO))
    ensures k.concluidasMes == Count(mans, m => IsConcluidaNoMes(m, MonthPrefix(year, month0)))
  {
    var prefix := MonthPrefix(year, month0);
    KpiRoute.Kpis(Count(mans, IsAberta), Count(mans, IsAtrasada),
                  Count(mans, m => IsHoje(m, hojeISO)),
                  Count(mans, m => IsConcluidaNoMes(m, prefix)))
  }

  /** No record counts as both open and late, nor as open and concluded, so
      each pair of those counts stays within the number of records. */
  lemma {:induction false} FallbackBounded(mans: seq<Record>, hojeISO: string, year: int, month0: int)
    requires 0 <= month0 < 12
    ensures var k := Fallback(mans, hojeISO, year, month0);
            && k.abertas + k.atrasadas <= |mans|
            && k.abertas + k.concluidasMes <= |mans|
            && k.atrasadas + k.concluidasMes <= |mans|
            && k.hoje <= |mans|
  {
    var prefix := MonthPrefix(year, month0);
    CountDisjoint(mans, IsAberta, IsAtrasada);
    CountDisjoint(mans, IsAberta, m => IsConcluidaNoMes(m, prefix));
    CountDisjoint(mans, IsAtrasada, m => IsConcluidaNoMes(m, prefix));
  }

  /** Every record with status 'hoje' is counted in `hoje`, whatever its date. */
  lemma {:induction false} FallbackHojeCountsStatus(mans: seq<Record>, hojeISO: string, year: int, month0: int)
    requires 0 <= month0 < 12
    ensures Count(mans, (m: Record) => m.status == Some("hoje")) <= Fallback(mans, hojeISO, year, month0).hoje
  {
    CountMonotone(mans, (m: Record) => m.status == Some("hoje"), m => IsHoje(m, hojeISO));
  }

  /** `fmtYMD` writes the month prefix of its own date, then the day. */
  lemma {:induction false} FmtYMDSplits(t: Moment)
    ensures var c := CivilOf(t.day);
            FmtYMD(t) == MonthPrefix(c.year, c.month0) + Pad2(c.date)
  {
  }

  /** Two month prefixes of years written without a sign are equal only for
      the same year and month. */
  lemma {:induction false} MonthPrefixInjective(y1: int, m1: int, y2: int, m2: int)
    requires 0 <= m1 < 12 && 0 <= m2 < 12 && y1 >= 0 && y2 >= 0
    requires MonthPrefix(y1, m1) == MonthPrefix(y2, m2)
    ensures y1 == y2 && m1 == m2
  {
    var p := MonthPrefix(y1, m1);
    var s1, s2 := ShowInt(y1), ShowInt(y2);
    assert |s1| == |s2|;
    assert s1 == p[..|s1|] == s2;
    ShowIntInjective(y1, y2);
  }

  /** A prefix of a month prefix followed by two more characters, when
      both years are written without a sign, is that same month prefix. */
  lemma {:induction false} MonthPrefixOfPrefix(y1: int, m1: int, d: string, y2: int, m2: int)
    requires 0 <= m1 < 12 && 0 <= m2 < 12 && y1 >= 0 && y2 >= 0 && |d| == 2
    requires StartsWith(MonthPrefix(y1, m1) + d, MonthPrefix(y2, m2))
    ensures MonthPrefix(y1, m1) == MonthPrefix(y2, m2)
  {
    var p1, p2 := MonthPrefix(y1, m1), MonthPrefix(y2, m2);
    var s := p1 + d;
    var a, b := |ShowInt(y1)|, |ShowInt(y2)|;
    assert s[..|p2|] == p2;
    assert a == b;
    assert p1 == s[..|p2|];
  }

  /** A concluded record dated with `fmtYMD` passes the month test exactly
      when that date lies in the given year and month (for years written
      without a sign). */
  lemma {:induction false} ConcluidaNoMesIffSameMonth(t: Moment, year: int, month0: int)
    requires 0 <= month0 < 12
    requires year >= 0 && CivilOf(t.day).year >= 0
    ensures IsConcluidaNoMes(Record(Some("concluida"), Some(FmtYMD(t))), MonthPrefix(year, month0))
            <==> CivilOf(t.day).year == year && CivilOf(t.day).month0 == month0
  {
    var c := CivilOf(t.day);
    FmtYMDSplits(t);
    StartsWithMonthPrefix(c.year, c.month0, Pad2(c.date), year, month0);
  }

  /** A month prefix followed by a two-digit day starts with a month prefix
      exactly when the two prefixes name the same year and month. */
  lemma {:induction false} StartsWithMonthPrefix(y1: int, m1: int, d: string, y2: int, m2: int)
    requires 0 <= m1 < 12 && 0 <= m2 < 12 && y1 >= 0 && y2 >= 0 && |d| == 2
    ensures StartsWith(MonthPrefix(y1, m1) + d, MonthPrefix(y2, m2)) <==> y1 == y2 && m1 == m2
  {
    var p := MonthPrefix(y1, m1);
    assert (p + d)[..|p|] == p;
    if StartsWith(p + d, MonthPrefix(y2, m2)) {
      MonthPrefixOfPrefix(y1, m1, d, y2, m2);
      MonthPrefixInjective(y1, m1, y2, m2);
    }
  }

  class KpisStore {
    var dados: Option<Kpis>
    var carregando: bool
    var erro: Option<string>

    constructor ()
      ensures dados.None? && !carregando && erro.None?
    {
      dados := None;
      carregando := false;
      erro := None;
    }

    /** `carregar()`: `erro` is cleared; the `/kpis` reply becomes `dados`;
        failing that the fallback counts over the `/manutencoes` reply do;
        failing both, `erro` is set and `dados` cleared. `carregando` ends
        false in every case. */
    method Carregar(kpis: Option<Kpis>, mans: Option<seq<Record>>, hojeISO: string, year: int, month0: int)
      requires 0 <= month0 < 12
      modifies this
      ensures !carregando
      ensures kpis.Some? ==> dados == kpis && erro.None?
      ensures kpis.None? && mans.Some? ==>
                dados == Some(Fallback(mans.value, hojeISO, year, month0)) && erro.None?
      ensures kpis.None? && mans.None? ==> dados.None? && erro == Some(ErroKpis)
    {
      carregando := true;
      erro := None;
      if kpis.Some? {
        dados := kpis;
      } else if mans.Some? {
        dados := Some(Fallback(mans.value, hojeISO, year, month0));
      } else {
        erro := Some(ErroKpis);
        dados := None;
      }
      carregando := false;
    }
  }
}
