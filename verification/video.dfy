/**
 * The movie-rental shop: clients, movies and the shop that registers them and
 * rents movies out. Console prompts become parameters (the typed lines), the clock
 * becomes the date `agora`, and `random.randint` becomes the stream of values it
 * would return, `sorteio`.
 */
module Video {
  import opened Base
  import opened Texto
  import opened Telefone
  import opened Datas
  import opened Registro

  /** The range `random.randint(10000, 99999)` draws client ids from. */
  predicate IdNoIntervalo(n: int) {
    10000 <= n <= 99999
  }

  /**
   * Fewer issued ids than values in `[a, b)` leave a value of `[a, b)` unissued.
   */
  lemma {:induction false} IdLivreEntre(ids: set<int>, a: int, b: int) returns (n: int)
    requires a <= b && |ids| < b - a
    ensures a <= n < b && n !in ids
    decreases b - a
  {
    if b - 1 !in ids {
      n := b - 1;
    } else {
      n := IdLivreEntre(ids - {b - 1}, a, b - 1);
    }
  }

  /** While fewer than 90000 ids are issued, some id in the draw range is still free. */
  lemma IdLivreExiste(ids: set<int>)
    requires |ids| < 90000
    ensures exists n :: IdNoIntervalo(n) && n !in ids
  {
    var n := IdLivreEntre(ids, 10000, 100000);
    assert IdNoIntervalo(n);
  }

  /** `Cliente`: id and name fixed at registration, phone stored in display form. */
  class Cliente {
    const id: int
    const nome: string
    const telefone: string
    var filmesLocados: map<string, string>

    constructor (id: int, nome: string, telefone: string)
      ensures this.id == id && this.nome == nome
      ensures this.telefone == FormatarTelefone(telefone)
      ensures filmesLocados == map[]
    {
      this.id := id;
      this.nome := nome;
      this.telefone := FormatarTelefone(telefone);
      this.filmesLocados := map[];
    }
  }

  /** `Filme`: a title and category, available until rented. */
  class Filme {
    const nome: string
    const categoria: string
    var disponivel: bool

    constructor (nome: string, categoria: string)
      ensures this.nome == nome && this.categoria == categoria && disponivel
    {
      this.nome := nome;
      this.categoria := categoria;
      this.disponivel := true;
    }
  }

  /** The 25 (title, category) pairs every shop starts with, in catalog order. */
  const FilmesPadrao: seq<(string, string)> := [
    ("O Chamado", "Terror"), ("Invocação do Mal", "Terror"),
    ("Halloween", "Terror"), ("A Hora do Pesadelo", "Terror"),
    ("Hereditário", "Terror"), ("John Wick", "Ação"),
    ("Mad Max: Estrada da Fúria", "Ação"), ("Velozes e Furiosos", "Ação"),
    ("Gladiador", "Ação"), ("Missão Impossível", "Ação"),
    ("O Poderoso Chefão", "Drama"), ("Forrest Gump", "Drama"),
    ("Clube da Luta", "Drama"), ("A Rede Social", "Drama"),
    ("A Vida é Bela", "Drama"), ("Diário de Uma Paixão", "Romance"),
    ("Titanic", "Romance"), ("Orgulho e Preconceito", "Romance"),
    ("Simplesmente Acontece", "Romance"), ("PS: Eu Te Amo", "Romance"),
    ("Interestelar", "Ficção Científica"), ("Blade Runner 2049", "Ficção Científica"),
    ("A Origem", "Ficção Científica"), ("O Exterminador do Futuro", "Ficção Científica"),
    ("Matrix", "Ficção Científica")
  ]

  /** The titles of a movie list, in order. */
  function Titulos(fs: seq<Filme>): seq<string> {
    seq(|fs|, k requires 0 <= k < |fs| => fs[k].nome)
  }

  /** The (title, category) pairs of a movie list, in order. */
  function Catalogo(fs: seq<Filme>): seq<(string, string)> {
    seq(|fs|, k requires 0 <= k < |fs| => (fs[k].nome, fs[k].categoria))
  }

  /** The names of a client list, in order. */
  function Nomes(cs: seq<Cliente>): seq<string> {
    seq(|cs|, i requires 0 <= i < |cs| => cs[i].nome)
  }

  /** How a rental attempt ends. */
  datatype ResultadoLocacao =
    | ClienteNaoEncontrado
    | FilmeIndisponivel
      /** `datetime` raised OverflowError computing the due date. */
    | DataForaDoIntervalo
    | Locado(cliente: nat, filme: nat, devolucao: string)

  /**
   * What `locar_filme` decides, given the client names, the movie titles and their
   * availability, the two lower-cased queries and today's date: the client lookup
   * comes first, then the movie lookup and its flag, then the due date.
   */
  function DesfechoDaLocacao(
    nomes: seq<string>, titulos: seq<string>, disponivel: seq<bool>,
    consultaCliente: string, consultaFilme: string, agora: Data): ResultadoLocacao
    requires |titulos| == |disponivel| && DataValida(agora)
  {
    match PrimeiraOcorrencia(nomes, consultaCliente)
    case None => ClienteNaoEncontrado
    case Some(i) =>
      match PrimeiraOcorrencia(titulos, consultaFilme)
      case None => FilmeIndisponivel
      case Some(k) =>
        if !disponivel[k] then FilmeIndisponivel
        else match SomarDias(agora, 5)
          case None => DataForaDoIntervalo
          case Some(vencimento) => Locado(i, k, FormatarData(vencimento))
  }

  /**
   * The outcomes of a rental, case by case: the client is missing; the movie is
   * missing or out; the due date is past 31/12/9999; or the first matching client
   * gets the first matching, available movie, due on the date five days after
   * `agora`, written `dd/mm/yyyy`.
   */
  lemma DesfechoDaLocacaoCasos(
    nomes: seq<string>, titulos: seq<string>, disponivel: seq<bool>,
    consultaCliente: string, consultaFilme: string, agora: Data)
    requires |titulos| == |disponivel| && DataValida(agora)
    ensures var r := DesfechoDaLocacao(nomes, titulos, disponivel, consultaCliente, consultaFilme, agora);
      && (r == ClienteNaoEncontrado <==> PrimeiraOcorrencia(nomes, consultaCliente).None?)
      && (r == FilmeIndisponivel <==>
           && PrimeiraOcorrencia(nomes, consultaCliente).Some?
           && (PrimeiraOcorrencia(titulos, consultaFilme).None?
               || !disponivel[PrimeiraOcorrencia(titulos, consultaFilme).value]))
      && (r == DataForaDoIntervalo <==>
           && PrimeiraOcorrencia(nomes, consultaCliente).Some?
           && PrimeiraOcorrencia(titulos, consultaFilme).Some?
           && disponivel[PrimeiraOcorrencia(titulos, consultaFilme).value]
           && Ordinal(agora) + 5 > Ordinal(UltimaData))
      && (r.Locado? ==>
           && PrimeiraOcorrencia(nomes, consultaCliente) == Some(r.cliente)
           && PrimeiraOcorrencia(titulos, consultaFilme) == Some(r.filme)
           && r.filme < |titulos| && disponivel[r.filme]
           && exists vencimento :: DataValida(vencimento)
                && Ordinal(vencimento) == Ordinal(agora) + 5
                && r.devolucao == FormatarData(vencimento))
  {
    SomarDiasOrdinal(agora, 5);
  }

  /**
   * Once a request has rented a movie, the same request (at any later date) finds
   * that movie unavailable: renting an already rented movie fails.
   */
  lemma LocacaoRepetidaFalha(
    nomes: seq<string>, titulos: seq<string>, disponivel: seq<bool>,
    consultaCliente: string, consultaFilme: string, agora: Data, depois: Data)
    requires |titulos| == |disponivel| && DataValida(agora) && DataValida(depois)
    requires DesfechoDaLocacao(nomes, titulos, disponivel, consultaCliente, consultaFilme, agora).Locado?
    ensures
      var r := DesfechoDaLocacao(nomes, titulos, disponivel, consultaCliente, consultaFilme, agora);
      DesfechoDaLocacao(nomes, titulos, disponivel[r.filme := false],
                        consultaCliente, consultaFilme, depois) == FilmeIndisponivel
  {
    DesfechoDaLocacaoCasos(nomes, titulos, disponivel, consultaCliente, consultaFilme, agora);
    var r := DesfechoDaLocacao(nomes, titulos, disponivel, consultaCliente, consultaFilme, agora);
    DesfechoDaLocacaoCasos(nomes, titulos, disponivel[r.filme := false],
                           consultaCliente, consultaFilme, depois);
  }

  /**
   * The registration prompt's retry loop over the lines typed for the phone:
   * the first line that, stripped, is an accepted number; `None` when the input
   * ends first (Python's `input()` then raises EOFError).
   */
  method LerTelefone(entradas: seq<string>) returns (r: Option<nat>)
    ensures r.Some? ==> r.value < |entradas| && ValidarTelefone(Aparar(entradas[r.value]))
    ensures r.Some? ==> forall j :: 0 <= j < r.value ==> !ValidarTelefone(Aparar(entradas[j]))
    ensures r.None? <==> forall j :: 0 <= j < |entradas| ==> !ValidarTelefone(Aparar(entradas[j]))
  {
    var j := 0;
    while j < |entradas|
      invariant 0 <= j <= |entradas|
      invariant forall l :: 0 <= l < j ==> !ValidarTelefone(Aparar(entradas[l]))
    {
      var telefone := Aparar(entradas[j]);
      if ValidarTelefone(telefone) {
        return Some(j);
      }
      j := j + 1;
    }
    return None;
  }

  /**
   * `Locadora`: the client list, the movie catalog and the set of ids issued so far.
   * The ghost fields give the rental ledger as values: each movie's `disponivel`
   * flag and each client's `filmes_locados` map, in list order.
   */
  class Locadora {
    var clientes: seq<Cliente>
    var filmes: seq<Filme>
    var idsGerados: set<int>

    ghost var disponibilidade: seq<bool>
    ghost var locacoes: seq<map<string, string>>

    /**
     * The shop's invariant: the ghost ledger mirrors the objects, the catalog holds
     * distinct movie objects, every issued id lies in the draw range, every client's
     * id was issued and no two clients share one, and the rental ledger is
     * consistent (`Registro.Consistente`).
     */
    ghost predicate Valid()
      reads this, clientes, filmes
    {
      && |disponibilidade| == |filmes|
      && (forall k :: 0 <= k < |filmes| ==> filmes[k].disponivel == disponibilidade[k])
      && |locacoes| == |clientes|
      && (forall i :: 0 <= i < |clientes| ==> clientes[i].filmesLocados == locacoes[i])
      && (forall k, l :: 0 <= k < l < |filmes| ==> filmes[k] != filmes[l])
      && (forall n :: n in idsGerados ==> IdNoIntervalo(n))
      && (forall i :: 0 <= i < |clientes| ==> clientes[i].id in idsGerados)
      && (forall i, j :: 0 <= i < j < |clientes| ==> clientes[i].id != clientes[j].id)
      && Consistente(Titulos(filmes), disponibilidade, locacoes)
    }

    /** `Locadora()`: no clients, no ids, and the 25 default movies, all available. */
    constructor ()
      ensures Valid()
      ensures clientes == [] && idsGerados == {}
      ensures Catalogo(filmes) == FilmesPadrao && |filmes| == 25
      ensures forall k :: 0 <= k < |filmes| ==> fresh(filmes[k]) && filmes[k].disponivel
    {
      clientes := [];
      filmes := [];
      idsGerados := {};
      disponibilidade := [];
      locacoes := [];
      new;
      ConsistenteSemLocacoes([], []);
      assert disponibilidade == seq(0, _ => true);
      CarregarFilmesPadrao();
    }

    /** Appends one new, available movie to the catalog. */
    method AdicionarFilme(nome: string, categoria: string) returns (f: Filme)
      requires Valid()
      modifies this`filmes, this`disponibilidade
      ensures Valid()
      ensures fresh(f) && f.nome == nome && f.categoria == categoria && f.disponivel
      ensures filmes == old(filmes) + [f]
      ensures clientes == old(clientes) && idsGerados == old(idsGerados)
      ensures disponibilidade == old(disponibilidade) + [true]
      ensures locacoes == old(locacoes)
    {
      f := new Filme(nome, categoria);
      NovoFilmePreservaConsistencia(Titulos(filmes), disponibilidade, locacoes, nome);
      filmes := filmes + [f];
      disponibilidade := disponibilidade + [true];
      assert Titulos(filmes) == old(Titulos(filmes)) + [nome];
    }

    /** Appends a movie per (title, category) pair of `lista`, in order, all available. */
    method CarregarFilmes(lista: seq<(string, string)>)
      requires Valid()
      modifies this`filmes, this`disponibilidade
      ensures Valid()
      ensures |filmes| == |old(filmes)| + |lista|
      ensures filmes[..|old(filmes)|] == old(filmes)
      ensures Catalogo(filmes[|old(filmes)|..]) == lista
      ensures forall k :: |old(filmes)| <= k < |filmes| ==> fresh(filmes[k]) && filmes[k].disponivel
      ensures disponibilidade == old(disponibilidade) + seq(|lista|, _ => true)
    {
      var i := 0;
      while i < |lista|
        invariant 0 <= i <= |lista|
        invariant Valid()
        invariant |filmes| == |old(filmes)| + i
        invariant filmes[..|old(filmes)|] == old(filmes)
        invariant Catalogo(filmes[|old(filmes)|..]) == lista[..i]
        invariant forall k :: |old(filmes)| <= k < |filmes| ==> fresh(filmes[k])
        invariant disponibilidade == old(disponibilidade) + seq(i, _ => true)
      {
        var (nome, categoria) := lista[i];
        ghost var novos := filmes[|old(filmes)|..];
        var f := AdicionarFilme(nome, categoria);
        assert filmes[|old(filmes)|..] == novos + [f];
        assert lista[..i + 1] == lista[..i] + [(nome, categoria)];
        i := i + 1;
      }
    }

    /** `carregar_filmes_padrao`: appends the 25 default movies in catalog order. */
    method CarregarFilmesPadrao()
      requires Valid()
      modifies this`filmes, this`disponibilidade
      ensures Valid()
      ensures |filmes| == |old(filmes)| + |FilmesPadrao|
      ensures filmes[..|old(filmes)|] == old(filmes)
      ensures Catalogo(filmes[|old(filmes)|..]) == FilmesPadrao
      ensures forall k :: |old(filmes)| <= k < |filmes| ==> fresh(filmes[k]) && filmes[k].disponivel
      ensures disponibilidade == old(disponibilidade) + seq(|FilmesPadrao|, _ => true)
    {
      CarregarFilmes(FilmesPadrao);
    }

    /**
     * `gerar_id_unico`: keeps drawing until a draw is not yet issued, records it and
     * returns it. Terminates because some draw of the stream is fresh.
     */
    method GerarIdUnico(sorteio: nat -> int) returns (id: int)
      requires Valid()
      requires forall k: nat :: IdNoIntervalo(sorteio(k))
      requires exists k: nat :: sorteio(k) !in idsGerados
      modifies this`idsGerados
      ensures Valid()
      ensures IdNoIntervalo(id) && id !in old(idsGerados)
      ensures idsGerados == old(idsGerados) + {id}
      ensures exists k: nat :: sorteio(k) == id && forall j: nat :: j < k ==> sorteio(j) in old(idsGerados)
    {
      ghost var livre: nat :| sorteio(livre) !in idsGerados;
      var k: nat := 0;
      while sorteio(k) in idsGerados
        invariant k <= livre
        invariant forall j: nat :: j < k ==> sorteio(j) in idsGerados
        decreases livre - k
      {
        k := k + 1;
      }
      id := sorteio(k);
      idsGerados := idsGerados + {id};
    }

    /** Appends a new client, with an issued id no client has, and no rentals. */
    method AdicionarCliente(id: int, nome: string, telefone: string) returns (c: Cliente)
      requires Valid()
      requires id in idsGerados && forall i :: 0 <= i < |clientes| ==> clientes[i].id != id
      modifies this`clientes, this`locacoes
      ensures Valid()
      ensures fresh(c) && c.id == id && c.nome == nome && c.telefone == FormatarTelefone(telefone)
      ensures c.filmesLocados == map[]
      ensures clientes == old(clientes) + [c]
      ensures locacoes == old(locacoes) + [map[]]
    {
      c := new Cliente(id, nome, telefone);
      NovoClientePreservaConsistencia(Titulos(filmes), disponibilidade, locacoes);
      clientes := clientes + [c];
      locacoes := locacoes + [map[]];
    }

    /**
     * `cadastrar_cliente`: draws the id first, then reads phone lines until one is
     * accepted, and appends a client with the stripped name, that phone and no rentals.
     * When the phone lines run out the id stays issued and no client is added.
     */
    method CadastrarCliente(sorteio: nat -> int, nomeEntrada: string, entradasTelefone: seq<string>)
      returns (id: int, cliente: Cliente?)
      requires Valid()
      requires forall k: nat :: IdNoIntervalo(sorteio(k))
      requires exists k: nat :: sorteio(k) !in idsGerados
      modifies this
      ensures Valid()
      ensures IdNoIntervalo(id) && id !in old(idsGerados)
      ensures idsGerados == old(idsGerados) + {id}
      ensures exists k: nat :: sorteio(k) == id && forall j: nat :: j < k ==> sorteio(j) in old(idsGerados)
      ensures filmes == old(filmes) && disponibilidade == old(disponibilidade)
      ensures cliente == null <==>
        forall j :: 0 <= j < |entradasTelefone| ==> !ValidarTelefone(Aparar(entradasTelefone[j]))
      ensures cliente == null ==> clientes == old(clientes) && locacoes == old(locacoes)
      ensures cliente != null ==>
        && fresh(cliente)
        && clientes == old(clientes) + [cliente]
        && locacoes == old(locacoes) + [map[]]
        && cliente.id == id && cliente.nome == Aparar(nomeEntrada)
        && cliente.filmesLocados == map[]
        && exists j :: 0 <= j < |entradasTelefone|
             && (forall l :: 0 <= l < j ==> !ValidarTelefone(Aparar(entradasTelefone[l])))
             && ValidarTelefone(Aparar(entradasTelefone[j]))
             && cliente.telefone == FormatarTelefone(Aparar(entradasTelefone[j]))
    {
      id := GerarIdUnico(sorteio);
      var nome := Aparar(nomeEntrada);
      var lido := LerTelefone(entradasTelefone);
      if lido.None? {
        return id, null;
      }
      cliente := AdicionarCliente(id, nome, Aparar(entradasTelefone[lido.value]));
    }

    /** `cadastrar_filme`: appends a movie with the stripped title and category. */
    method CadastrarFilme(nomeEntrada: string, categoriaEntrada: string) returns (f: Filme)
      requires Valid()
      modifies this
      ensures Valid()
      ensures fresh(f) && f.nome == Aparar(nomeEntrada) && f.categoria == Aparar(categoriaEntrada)
      ensures f.disponivel
      ensures filmes == old(filmes) + [f]
      ensures clientes == old(clientes) && idsGerados == old(idsGerados)
      ensures disponibilidade == old(disponibilidade) + [true]
      ensures locacoes == old(locacoes)
    {
      f := AdicionarFilme(Aparar(nomeEntrada), Aparar(categoriaEntrada));
    }

    /**
     * Lends movie `k` to client `i`: the title joins the client's map due on
     * `devolucao`, then the movie is marked unavailable.
     */
    method EfetivarLocacao(i: nat, k: nat, devolucao: string)
      requires Valid()
      requires i < |clientes| && k < |filmes| && filmes[k].disponivel
      requires PrimeiraOcorrencia(Titulos(filmes), Minusculas(filmes[k].nome)) == Some(k)
      modifies this`disponibilidade, this`locacoes, clientes[i], filmes[k]
      ensures Valid()
      ensures disponibilidade == old(disponibilidade)[k := false]
      ensures locacoes == old(locacoes)[i := old(locacoes)[i][filmes[k].nome := devolucao]]
      ensures forall j :: 0 <= j < |clientes| && j != i ==> unchanged(clientes[j])
      ensures forall l :: 0 <= l < |filmes| && l != k ==> unchanged(filmes[l])
    {
      var cliente, filme := clientes[i], filmes[k];
      LocacaoPreservaConsistencia(Titulos(filmes), disponibilidade, locacoes, i, k, devolucao);
      forall j | 0 <= j < |clientes| && j != i ensures clientes[j] != cliente {
        assert clientes[j].id != clientes[i].id;
      }
      cliente.filmesLocados := cliente.filmesLocados[filme.nome := devolucao];
      locacoes := locacoes[i := cliente.filmesLocados];
      filme.disponivel := false;
      disponibilidade := disponibilidade[k := false];
    }

    /**
     * The last step of a rental, once client `i` and movie `k` are found: computes
     * the due date five days after `agora` and lends the movie, or fails with no
     * change when that date is past the last representable one.
     */
    method ConcluirLocacao(i: nat, k: nat, agora: Data) returns (r: ResultadoLocacao)
      requires Valid() && DataValida(agora)
      requires i < |clientes| && k < |filmes| && filmes[k].disponivel
      requires PrimeiraOcorrencia(Titulos(filmes), Minusculas(filmes[k].nome)) == Some(k)
      modifies this`disponibilidade, this`locacoes, clientes[i], filmes[k]
      ensures Valid()
      ensures r == match SomarDias(agora, 5)
        case None => DataForaDoIntervalo
        case Some(vencimento) => Locado(i, k, FormatarData(vencimento))
      ensures !r.Locado? ==>
        && disponibilidade == old(disponibilidade) && locacoes == old(locacoes)
        && unchanged(clientes[i]) && unchanged(filmes[k])
      ensures r.Locado? ==>
        && disponibilidade == old(disponibilidade)[k := false]
        && locacoes == old(locacoes)[i := old(locacoes)[i][filmes[k].nome := r.devolucao]]
      ensures forall j :: 0 <= j < |clientes| && j != i ==> unchanged(clientes[j])
      ensures forall l :: 0 <= l < |filmes| && l != k ==> unchanged(filmes[l])
    {
      var vencimento := SomarDias(agora, 5);
      if vencimento.None? {
        return DataForaDoIntervalo;
      }
      var devolucao := FormatarData(vencimento.value);
      EfetivarLocacao(i, k, devolucao);
      r := Locado(i, k, devolucao);
    }

    /**
     * `locar_filme`: looks the client up, then the movie; fails with no change when
     * the client is missing or the movie is missing or out, and otherwise records the
     * movie in the client's map due `agora + 5 days` and marks it unavailable.
     */
    method LocarFilme(entradaCliente: string, entradaFilme: string, agora: Data)
      returns (r: ResultadoLocacao)
      requires Valid() && DataValida(agora)
      modifies this`disponibilidade, this`locacoes, clientes, filmes
      ensures Valid()
      ensures r == DesfechoDaLocacao(Nomes(clientes), Titulos(filmes), old(disponibilidade),
                     Minusculas(Aparar(entradaCliente)), Minusculas(Aparar(entradaFilme)), agora)
      ensures !r.Locado? ==>
        disponibilidade == old(disponibilidade) && locacoes == old(locacoes)
        && (forall i :: 0 <= i < |clientes| ==> unchanged(clientes[i]))
        && (forall k :: 0 <= k < |filmes| ==> unchanged(filmes[k]))
      ensures r.Locado? ==>
        && (forall i :: 0 <= i < |clientes| && i != r.cliente ==> unchanged(clientes[i]))
        && (forall k :: 0 <= k < |filmes| && k != r.filme ==> unchanged(filmes[k]))
        && disponibilidade == old(disponibilidade)[r.filme := false]
        && locacoes == old(locacoes)[r.cliente :=
             old(locacoes)[r.cliente][Titulos(filmes)[r.filme] := r.devolucao]]
    {
      var consultaCliente := Minusculas(Aparar(entradaCliente));
      var c := PrimeiraOcorrencia(Nomes(clientes), consultaCliente);
      if c.None? {
        return ClienteNaoEncontrado;
      }
      var consultaFilme := Minusculas(Aparar(entradaFilme));
      var f := PrimeiraOcorrencia(Titulos(filmes), consultaFilme);
      if f.None? || !filmes[f.value].disponivel {
        return FilmeIndisponivel;
      }
      r := ConcluirLocacao(c.value, f.value, agora);
    }
  }
}
