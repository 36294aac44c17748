/**
 * Calendar dates as Python's `datetime` handles them for the due date of a rental:
 * the proleptic Gregorian calendar from 0001-01-01 to 9999-12-31, adding whole days
 * (`+ timedelta(days=n)`, which raises OverflowError past the last date) and the
 * `%d/%m/%Y` rendering.
 */
module Datas {
  import opened Base
  import opened Texto

  datatype Data = Data(ano: int, mes: int, dia: int)

  /** `datetime.MAXYEAR`. */
  const AnoMaximo: int := 9999

  predicate Bissexto(ano: int) {
    ano % 4 == 0 && (ano % 100 != 0 || ano % 400 == 0)
  }

  function DiasNoMes(ano: int, mes: int): (n: int)
    requires 1 <= mes <= 12
    ensures 28 <= n <= 31
    ensures mes == 2 ==> (n == 29 <==> Bissexto(ano))
  {
    if mes == 2 then (if Bissexto(ano) then 29 else 28)
    else if mes == 4 || mes == 6 || mes == 9 || mes == 11 then 30
    else 31
  }

  predicate DataValida(d: Data) {
    1 <= d.ano <= AnoMaximo && 1 <= d.mes <= 12 && 1 <= d.dia <= DiasNoMes(d.ano, d.mes)
  }

  /** The last date `datetime` can represent. */
  const UltimaData: Data := Data(AnoMaximo, 12, 31)

  /** Days in the years before `ano` (`date.toordinal`'s year term). */
  function DiasAntesDoAno(ano: int): int {
    var y := ano - 1;
    365 * y + y / 4 - y / 100 + y / 400
  }

  /** Days in the months of `ano` before `mes`. */
  function DiasAntesDoMes(ano: int, mes: int): int
    requires 1 <= mes <= 12
  {
    [0, 31, 59, 90, 120, 151, 181, 212, 243, 273, 304, 334][mes - 1]
    + (if mes > 2 && Bissexto(ano) then 1 else 0)
  }

  /** `date.toordinal()`: 0001-01-01 is day 1 and every later day adds one. */
  function Ordinal(d: Data): int
    requires 1 <= d.mes <= 12
  {
    DiasAntesDoAno(d.ano) + DiasAntesDoMes(d.ano, d.mes) + d.dia
  }

  /** The calendar day after `d`; after 9999-12-31 this is a year `datetime` refuses. */
  function DiaSeguinte(d: Data): (e: Data)
    requires DataValida(d)
    ensures 1 <= e.mes <= 12
    ensures DataValida(e) <==> d != UltimaData
  {
    if d.dia < DiasNoMes(d.ano, d.mes) then Data(d.ano, d.mes, d.dia + 1)
    else if d.mes < 12 then Data(d.ano, d.mes + 1, 1)
    else Data(d.ano + 1, 1, 1)
  }

  /** A year has 366 days when it is a leap year and 365 otherwise. */
  lemma DiasDoAno(ano: int)
    requires 1 <= ano
    ensures DiasAntesDoAno(ano + 1) == DiasAntesDoAno(ano) + (if Bissexto(ano) then 366 else 365)
  {
    var y := ano - 1;
    assert (y + 1) / 4 == y / 4 + (if ano % 4 == 0 then 1 else 0);
    assert (y + 1) / 100 == y / 100 + (if ano % 100 == 0 then 1 else 0);
    assert (y + 1) / 400 == y / 400 + (if ano % 400 == 0 then 1 else 0);
  }

  /** The months of a year add up to the year's length. */
  lemma DiasAntesDeDezembro(ano: int)
    ensures DiasAntesDoMes(ano, 12) + DiasNoMes(ano, 12) == (if Bissexto(ano) then 366 else 365)
  {
  }

  /** The next day is exactly one day later on the ordinal scale. */
  lemma DiaSeguinteOrdinal(d: Data)
    requires DataValida(d)
    ensures Ordinal(DiaSeguinte(d)) == Ordinal(d) + 1
  {
    if d.dia == DiasNoMes(d.ano, d.mes) && d.mes == 12 {
      DiasDoAno(d.ano);
      DiasAntesDeDezembro(d.ano);
    }
  }

  /** Every representable date lies on or before the last one. */
  lemma {:induction false} OrdinalAteUltimaData(d: Data)
    requires DataValida(d)
    ensures Ordinal(d) <= Ordinal(UltimaData)
    decreases AnoMaximo - d.ano, 12 - d.mes, 31 - d.dia
  {
    if d != UltimaData {
      DiaSeguinteOrdinal(d);
      OrdinalAteUltimaData(DiaSeguinte(d));
    }
  }

  /**
   * `d + timedelta(days=n)` on the date part: `None` stands for the OverflowError Python
   * raises when the result would lie after 9999-12-31.
   */
  function SomarDias(d: Data, n: nat): (r: Option<Data>)
    requires DataValida(d)
    decreases n
  {
    if n == 0 then Some(d)
    else if d == UltimaData then None
    else SomarDias(DiaSeguinte(d), n - 1)
  }

  /**
   * Adding `n` days moves `n` days along the ordinal scale, and fails exactly when
   * that passes the last representable date.
   */
  lemma {:induction false} SomarDiasOrdinal(d: Data, n: nat)
    requires DataValida(d)
    ensures SomarDias(d, n).Some? <==> Ordinal(d) + n <= Ordinal(UltimaData)
    ensures SomarDias(d, n).Some? ==>
      DataValida(SomarDias(d, n).value) && Ordinal(SomarDias(d, n).value) == Ordinal(d) + n
    decreases n
  {
    OrdinalAteUltimaData(d);
    if n > 0 && d != UltimaData {
      DiaSeguinteOrdinal(d);
      SomarDiasOrdinal(DiaSeguinte(d), n - 1);
    }
  }

  /** The digit character for `0 <= v < 10`. */
  function Digito(v: int): (c: char)
    requires 0 <= v < 10
    ensures EhDigito(c)
  {
    ('0' as int + v) as char
  }

  /** The value of an ASCII digit. */
  function ValorDigito(c: char): int
    requires EhDigito(c)
  {
    c as int - '0' as int
  }

  /** `v` written with exactly `largura` decimal digits, padded with zeros on the left. */
  function Decimal(v: nat, largura: nat): (s: string)
    ensures |s| == largura
    ensures forall i :: 0 <= i < |s| ==> EhDigito(s[i])
  {
    if largura == 0 then [] else Decimal(v / 10, largura - 1) + [Digito(v % 10)]
  }

  /** The value of a string of digits, most significant first. */
  function ValorDecimal(s: string): nat
    requires forall i :: 0 <= i < |s| ==> EhDigito(s[i])
  {
    if s == [] then 0 else 10 * ValorDecimal(s[..|s| - 1]) + ValorDigito(s[|s| - 1])
  }

  /** Reading back a zero-padded number gives the number, when it fits in the width. */
  lemma {:induction false} DecimalIdaEVolta(v: nat, largura: nat, limite: nat)
    requires limite == Potencia10(largura) && v < limite
    ensures ValorDecimal(Decimal(v, largura)) == v
  {
    if largura > 0 {
      var s := Decimal(v, largura);
      assert s[..|s| - 1] == Decimal(v / 10, largura - 1);
      DecimalIdaEVolta(v / 10, largura - 1, Potencia10(largura - 1));
    }
  }

  function Potencia10(n: nat): (p: nat)
    ensures p >= 1
  {
    if n == 0 then 1 else 10 * Potencia10(n - 1)
  }

  /** `strftime("%d/%m/%Y")`: two-digit day, two-digit month, four-digit year. */
  function FormatarData(d: Data): (s: string)
    requires DataValida(d)
    ensures |s| == 10 && s[2] == '/' && s[5] == '/'
  {
    Decimal(d.dia, 2) + "/" + Decimal(d.mes, 2) + "/" + Decimal(d.ano, 4)
  }

  /** Reads `DD/MM/YYYY` back into a date; the partner of FormatarData. */
  function LerData(s: string): Option<Data> {
    if |s| == 10 && s[2] == '/' && s[5] == '/'
       && (forall i :: 0 <= i < 10 && i != 2 && i != 5 ==> EhDigito(s[i]))
    then Some(Data(ValorDecimal(s[6..10]), ValorDecimal(s[3..5]), ValorDecimal(s[0..2])))
    else None
  }

  /** The rendered due date holds the whole date: reading it back gives the date. */
  lemma FormatarDataIdaEVolta(d: Data)
    requires DataValida(d)
    ensures LerData(FormatarData(d)) == Some(d)
  {
    var s := FormatarData(d);
    assert s[0..2] == Decimal(d.dia, 2);
    assert s[3..5] == Decimal(d.mes, 2);
    assert s[6..10] == Decimal(d.ano, 4);
    DecimalIdaEVolta(d.dia, 2, 100);
    DecimalIdaEVolta(d.mes, 2, 100);
    DecimalIdaEVolta(d.ano, 4, 10000);
  }

  /** Different dates never render to the same due-date text. */
  lemma FormatarDataInjetiva(d: Data, e: Data)
    requires DataValida(d) && DataValida(e)
    requires FormatarData(d) == FormatarData(e)
    ensures d == e
  {
    FormatarDataIdaEVolta(d);
    FormatarDataIdaEVolta(e);
  }
}
