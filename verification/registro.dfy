/**
 * The rental ledger seen as values: the movie titles in catalog order, their
 * availability flags, and each client's map from rented title to due date. The
 * shop's objects are tied to these views by `Video.Locadora.Valid`, so the
 * invariant and its preservation are proved here once, without the heap.
 */
module Registro {
  import opened Base
  import opened Texto

  /**
   * `next((x for x in xs if x.nome.lower() == consulta), None)`: the position of the
   * first name whose lower-cased form equals the (already lower-cased) query.
   */
  function PrimeiraOcorrencia(nomes: seq<string>, consulta: string): (r: Option<nat>)
    ensures r.Some? ==> r.value < |nomes| && Minusculas(nomes[r.value]) == consulta
    ensures r.Some? ==> forall j :: 0 <= j < r.value ==> Minusculas(nomes[j]) != consulta
    ensures r.None? <==> forall j :: 0 <= j < |nomes| ==> Minusculas(nomes[j]) != consulta
  {
    if nomes == [] then None
    else if Minusculas(nomes[0]) == consulta then Some(0)
    else match PrimeiraOcorrencia(nomes[1..], consulta)
      case None => None
      case Some(i) => Some(i + 1)
  }

  /** Appending a name never changes an existing first match. */
  lemma PrimeiraOcorrenciaAposAcrescentar(nomes: seq<string>, novo: string, consulta: string)
    requires PrimeiraOcorrencia(nomes, consulta).Some?
    ensures PrimeiraOcorrencia(nomes + [novo], consulta) == PrimeiraOcorrencia(nomes, consulta)
  {
    var k := PrimeiraOcorrencia(nomes, consulta).value;
    var r := PrimeiraOcorrencia(nomes + [novo], consulta);
    assert (nomes + [novo])[k] == nomes[k];
    assert forall j :: 0 <= j < k ==> (nomes + [novo])[j] == nomes[j];
  }

  /** How many clients have `titulo` as a key of their rental map. */
  function Detentores(locacoes: seq<map<string, string>>, titulo: string): (n: nat)
    ensures n <= |locacoes|
    ensures n == 0 <==> forall i :: 0 <= i < |locacoes| ==> titulo !in locacoes[i]
  {
    if locacoes == [] then 0
    else (if titulo in locacoes[0] then 1 else 0) + Detentores(locacoes[1..], titulo)
  }

  /** Replacing one client's map changes the count by that client's contribution only. */
  lemma {:induction false} DetentoresAposTrocar(
    locacoes: seq<map<string, string>>, i: nat, m: map<string, string>, titulo: string)
    requires i < |locacoes|
    ensures Detentores(locacoes[i := m], titulo)
         == Detentores(locacoes, titulo)
            - (if titulo in locacoes[i] then 1 else 0) + (if titulo in m then 1 else 0)
  {
    if i == 0 {
      assert locacoes[i := m][1..] == locacoes[1..];
    } else {
      assert locacoes[i := m][1..] == locacoes[1..][i - 1 := m];
      DetentoresAposTrocar(locacoes[1..], i - 1, m, titulo);
    }
  }

  /** A client who joins with no rentals holds nothing. */
  lemma {:induction false} DetentoresAposNovoCliente(locacoes: seq<map<string, string>>, titulo: string)
    ensures Detentores(locacoes + [map[]], titulo) == Detentores(locacoes, titulo)
  {
    if locacoes != [] {
      assert (locacoes + [map[]])[1..] == locacoes[1..] + [map[]];
      DetentoresAposNovoCliente(locacoes[1..], titulo);
    }
  }

  /** Two different clients holding a title make at least two holders. */
  lemma {:induction false} DoisDetentores(
    locacoes: seq<map<string, string>>, titulo: string, i: nat, j: nat)
    requires i < j < |locacoes|
    requires titulo in locacoes[i] && titulo in locacoes[j]
    ensures Detentores(locacoes, titulo) >= 2
  {
    if i == 0 {
      assert titulo in locacoes[1..][j - 1];
    } else {
      DoisDetentores(locacoes[1..], titulo, i - 1, j - 1);
    }
  }

  /** The movie at `k` is the one a lookup of its own title finds. */
  ghost predicate EhPrimeiro(titulos: seq<string>, k: nat)
    requires k < |titulos|
  {
    PrimeiraOcorrencia(titulos, Minusculas(titulos[k])) == Some(k)
  }

  /** A rented movie is the one a lookup of its own title finds. */
  ghost predicate LocadosSaoPrimeiros(titulos: seq<string>, disponivel: seq<bool>)
    requires |titulos| == |disponivel|
  {
    forall k {:trigger EhPrimeiro(titulos, k)} ::
      0 <= k < |disponivel| && !disponivel[k] ==> EhPrimeiro(titulos, k)
  }

  /** A rented movie's title is a key of exactly one client's map. */
  ghost predicate LocadosTemUmDetentor(
    titulos: seq<string>, disponivel: seq<bool>, locacoes: seq<map<string, string>>)
    requires |titulos| == |disponivel|
  {
    forall k {:trigger Detentores(locacoes, titulos[k])} ::
      0 <= k < |disponivel| && !disponivel[k] ==> Detentores(locacoes, titulos[k]) == 1
  }

  /** Every key of every client's map is the title of a rented movie. */
  ghost predicate ChavesSaoLocados(
    titulos: seq<string>, disponivel: seq<bool>, locacoes: seq<map<string, string>>)
    requires |titulos| == |disponivel|
  {
    forall i, t :: 0 <= i < |locacoes| && t in locacoes[i] ==>
      exists k :: 0 <= k < |titulos| && titulos[k] == t && !disponivel[k]
  }

  /**
   * The rental invariant of the shop: a rented movie is the first of its
   * case-insensitive title (so two rented movies never share a title), is held by
   * exactly one client, and clients hold nothing but rented movies.
   */
  ghost predicate Consistente(
    titulos: seq<string>, disponivel: seq<bool>, locacoes: seq<map<string, string>>)
  {
    && |titulos| == |disponivel|
    && LocadosSaoPrimeiros(titulos, disponivel)
    && LocadosTemUmDetentor(titulos, disponivel, locacoes)
    && ChavesSaoLocados(titulos, disponivel, locacoes)
  }

  /** With no rentals at all the ledger is consistent, whatever the catalog. */
  lemma ConsistenteSemLocacoes(titulos: seq<string>, locacoes: seq<map<string, string>>)
    requires forall i :: 0 <= i < |locacoes| ==> locacoes[i] == map[]
    ensures Consistente(titulos, seq(|titulos|, _ => true), locacoes)
  {
  }

  /** No two clients hold the same title. */
  lemma DetentoresDistintos(
    titulos: seq<string>, disponivel: seq<bool>, locacoes: seq<map<string, string>>,
    i: nat, j: nat, t: string)
    requires Consistente(titulos, disponivel, locacoes)
    requires i < |locacoes| && j < |locacoes| && t in locacoes[i] && t in locacoes[j]
    ensures i == j
  {
    var k :| 0 <= k < |titulos| && titulos[k] == t && !disponivel[k];
    if i < j {
      DoisDetentores(locacoes, t, i, j);
    } else if j < i {
      DoisDetentores(locacoes, t, j, i);
    }
  }

  /** Two different movies that are both rented have different titles. */
  lemma LocadosTemTitulosDistintos(
    titulos: seq<string>, disponivel: seq<bool>, locacoes: seq<map<string, string>>, k: nat, l: nat)
    requires Consistente(titulos, disponivel, locacoes)
    requires k < |disponivel| && l < |disponivel| && !disponivel[k] && !disponivel[l] && k != l
    ensures titulos[k] != titulos[l]
  {
    assert EhPrimeiro(titulos, k) && EhPrimeiro(titulos, l);
  }

  /** An available movie that a lookup of its title finds is held by nobody. */
  lemma DisponivelSemDetentor(
    titulos: seq<string>, disponivel: seq<bool>, locacoes: seq<map<string, string>>, k: nat)
    requires Consistente(titulos, disponivel, locacoes)
    requires k < |disponivel| && disponivel[k]
    requires PrimeiraOcorrencia(titulos, Minusculas(titulos[k])) == Some(k)
    ensures Detentores(locacoes, titulos[k]) == 0
  {
    forall l | 0 <= l < |titulos| && !disponivel[l]
      ensures titulos[l] != titulos[k]
    {
      assert EhPrimeiro(titulos, l);
    }
  }

  /**
   * Renting the movie at `k` (available, and the one its title's lookup finds) to
   * client `i` keeps the ledger consistent: the flag goes down and the title joins
   * that client's map, due on `vencimento`.
   */
  lemma LocacaoPreservaConsistencia(
    titulos: seq<string>, disponivel: seq<bool>, locacoes: seq<map<string, string>>,
    i: nat, k: nat, vencimento: string)
    requires Consistente(titulos, disponivel, locacoes)
    requires i < |locacoes| && k < |disponivel| && disponivel[k]
    requires PrimeiraOcorrencia(titulos, Minusculas(titulos[k])) == Some(k)
    ensures Consistente(titulos, disponivel[k := false],
                        locacoes[i := locacoes[i][titulos[k] := vencimento]])
  {
    var t := titulos[k];
    var disp' := disponivel[k := false];
    var locs' := locacoes[i := locacoes[i][t := vencimento]];
    DisponivelSemDetentor(titulos, disponivel, locacoes, k);
    forall l | 0 <= l < |disp'| && !disp'[l]
      ensures Detentores(locs', titulos[l]) == 1
    {
      DetentoresAposTrocar(locacoes, i, locacoes[i][t := vencimento], titulos[l]);
      if l != k {
        assert EhPrimeiro(titulos, l) && Detentores(locacoes, titulos[l]) == 1;
      }
    }
    forall j, u | 0 <= j < |locs'| && u in locs'[j]
      ensures exists l :: 0 <= l < |titulos| && titulos[l] == u && !disp'[l]
    {
      if u == t {
        assert titulos[k] == u && !disp'[k];
      } else {
        assert u in locacoes[j];
        var l :| 0 <= l < |titulos| && titulos[l] == u && !disponivel[l];
        assert !disp'[l];
      }
    }
  }

  /** Appending an available movie keeps every rented movie first of its title. */
  lemma PrimeirosAposNovoFilme(titulos: seq<string>, disponivel: seq<bool>, titulo: string)
    requires |titulos| == |disponivel| && LocadosSaoPrimeiros(titulos, disponivel)
    ensures LocadosSaoPrimeiros(titulos + [titulo], disponivel + [true])
  {
    var ts, ds := titulos + [titulo], disponivel + [true];
    forall k | 0 <= k < |ds| && !ds[k]
      ensures EhPrimeiro(ts, k)
    {
      assert k < |titulos| && ts[k] == titulos[k] && !disponivel[k];
      assert EhPrimeiro(titulos, k);
      PrimeiraOcorrenciaAposAcrescentar(titulos, titulo, Minusculas(titulos[k]));
    }
  }

  /** Appending an available movie keeps every client key a rented title. */
  lemma ChavesAposNovoFilme(
    titulos: seq<string>, disponivel: seq<bool>, locacoes: seq<map<string, string>>, titulo: string)
    requires |titulos| == |disponivel| && ChavesSaoLocados(titulos, disponivel, locacoes)
    ensures ChavesSaoLocados(titulos + [titulo], disponivel + [true], locacoes)
  {
    var ts, ds := titulos + [titulo], disponivel + [true];
    forall i, t | 0 <= i < |locacoes| && t in locacoes[i]
      ensures exists k :: 0 <= k < |ts| && ts[k] == t && !ds[k]
    {
      var k :| 0 <= k < |titulos| && titulos[k] == t && !disponivel[k];
      assert ts[k] == t && !ds[k];
    }
  }

  /** Registering a movie (available, at the end of the catalog) keeps the ledger consistent. */
  lemma NovoFilmePreservaConsistencia(
    titulos: seq<string>, disponivel: seq<bool>, locacoes: seq<map<string, string>>, titulo: string)
    requires Consistente(titulos, disponivel, locacoes)
    ensures Consistente(titulos + [titulo], disponivel + [true], locacoes)
  {
    PrimeirosAposNovoFilme(titulos, disponivel, titulo);
    ChavesAposNovoFilme(titulos, disponivel, locacoes, titulo);
    var ts, ds := titulos + [titulo], disponivel + [true];
    forall k | 0 <= k < |ds| && !ds[k]
      ensures Detentores(locacoes, ts[k]) == 1
    {
      assert k < |titulos| && ts[k] == titulos[k] && !disponivel[k];
      assert Detentores(locacoes, titulos[k]) == 1;
    }
  }

  /** Registering a client with an empty rental map keeps the ledger consistent. */
  lemma NovoClientePreservaConsistencia(
    titulos: seq<string>, disponivel: seq<bool>, locacoes: seq<map<string, string>>)
    requires Consistente(titulos, disponivel, locacoes)
    ensures Consistente(titulos, disponivel, locacoes + [map[]])
  {
    var ls := locacoes + [map[]];
    forall k | 0 <= k < |disponivel| && !disponivel[k]
      ensures Detentores(ls, titulos[k]) == 1
    {
      DetentoresAposNovoCliente(locacoes, titulos[k]);
      assert Detentores(locacoes, titulos[k]) == 1;
    }
    forall i, t | 0 <= i < |ls| && t in ls[i]
      ensures exists k :: 0 <= k < |titulos| && titulos[k] == t && !disponivel[k]
    {
      assert ls[i] == locacoes[i];
    }
  }
}
