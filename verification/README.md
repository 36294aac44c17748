# Locadora: a verified model of the movie-rental shop

`video.py` runs a small movie-rental shop behind a console menu. Three classes
hold the state:

- `Cliente` has an id, a name, a phone number in display form and a map from
  rented title to due date.
- `Filme` has a title, a category and an availability flag.
- `Locadora` has the client list, the movie catalog and the set of client ids
  issued so far.

The shop registers clients and movies and rents a movie to a client. A rental
looks up the client by case-insensitive name, then the movie by case-insensitive
title. It fails with no change when the client is missing or the first matching
movie is missing or out. Otherwise it records the title in the client's map,
due five days after today, and marks the movie unavailable.

The project models that core in Dafny. The modules follow the program's pieces:

- `Texto` (texto.dfy) holds the Python string primitives the shop relies on:
  `str.isdigit`, `str.lower`, `str.strip` and clamped slicing.
- `Telefone` (telefone.dfy) holds the phone check and the `(DD) DDDDD-DDDD`
  display form, with its inverse.
- `Datas` (datas.dfy) holds Gregorian dates, adding days as `datetime` does
  (including the OverflowError past 31/12/9999) and the `%d/%m/%Y` rendering,
  with its inverse.
- `Registro` (registro.dfy) holds the first-match lookup and the rental ledger
  as plain values (titles, availability flags, per-client maps). It states the
  ledger invariant and proves that every operation preserves it.
- `Video` (video.dfy) holds the classes `Cliente`, `Filme` and `Locadora`.
  Their fields are updated in place, as in the source. `Locadora.Valid()` ties
  the objects to the ledger values.

The console is replaced by parameters:

- each prompt becomes the line typed;
- the phone prompt becomes the sequence of lines typed until input ends;
- `datetime.now()` becomes the date `agora`;
- `random.randint(10000, 99999)` becomes the stream of values it would
  return, `sorteio`.

The ledger invariant (`Registro.Consistente`) has three parts:

- every unavailable movie is the first case-insensitive match of its own
  title;
- every unavailable movie is a key of exactly one client's map;
- every key of every client's map is the title of an unavailable movie.

It follows that no two clients hold the same title, and that a movie a lookup
can find while available is held by nobody. A stronger statement, "every
available movie is held by nobody", does not hold in this code. Take two movies
registered with the same title. Only the first can ever be rented, and while it
is out the second one is available under a title that a client holds. The
model follows the code.

## Model

| member | source | states |
|---|---|---|
| Texto.SoDigitos | video.py:68 | `isdigit()` holds iff the string is non-empty and every character is a digit |
| Texto.Minusculas | video.py:113-114 | lower-casing keeps the length and lowers each character in place |
| Texto.MinusculasIdempotente | video.py:113-114 | lowering an already lowered query changes nothing |
| Texto.Aparar | video.py:73-76 | `strip()` returns the slice of the input left after the leading and trailing whitespace, which is all whitespace, and the result neither starts nor ends with whitespace |
| Texto.ApararIdempotente | video.py:113 | stripping twice is stripping once |
| Texto.Fatia | video.py:18 | a slice with in-range bounds is the plain subsequence, and its length follows Python's clamping otherwise |
| Telefone.ValidarTelefone | video.py:67-68 | a phone is accepted iff it has exactly 11 characters, all digits |
| Telefone.FormatarTelefone | video.py:15-18 | the display form is 4 characters longer than the number |
| Telefone.FormatoDeTelefoneValido | video.py:15-18 | for an accepted number the display form is `(` + first 2 + `) ` + next 5 + `-` + last 4: 15 characters, punctuation at positions 0, 3, 4 and 10, digits elsewhere |
| Telefone.FormatarTelefoneIdaEVolta | video.py:16-18 | deleting `(`, `)`, space and `-` from the display form gives back the number |
| Telefone.FormatarTelefoneInjetiva | video.py:16-18 | two accepted numbers with the same display form are equal |
| Datas.DiaSeguinte | video.py:127 | the next calendar day is a representable date iff the day is not 31/12/9999 |
| Datas.DiaSeguinteOrdinal | video.py:127 | the next day is one day later on the ordinal scale of `date.toordinal` |
| Datas.OrdinalAteUltimaData | video.py:127 | no representable date lies after 31/12/9999 |
| Datas.SomarDiasOrdinal | video.py:127 | `d + timedelta(days=n)` succeeds iff it stays on or before 31/12/9999, and then it is a valid date exactly `n` days later |
| Datas.FormatarData | video.py:127 | `%d/%m/%Y` gives 10 characters with `/` at positions 2 and 5 |
| Datas.FormatarDataIdaEVolta | video.py:127 | reading the rendered due date back gives the date |
| Datas.FormatarDataInjetiva | video.py:127 | different dates render to different due-date texts |
| Registro.PrimeiraOcorrencia | video.py:113-114 | the lookup returns the first position whose lower-cased name equals the query, and none iff no name matches |
| Registro.PrimeiraOcorrenciaAposAcrescentar | video.py:93-94 | appending to a list never changes a lookup that already had a match |
| Registro.Detentores | video.py:128 | the holder count is zero iff no client's map has the title |
| Registro.DetentoresAposTrocar | video.py:128 | replacing one client's map changes the holder count only by that client's contribution |
| Registro.ConsistenteSemLocacoes | video.py:33-37 | with every movie available and every map empty the ledger is consistent |
| Registro.DetentoresDistintos | video.py:128-129 | under the invariant, no two clients hold the same title |
| Registro.LocadosTemTitulosDistintos | video.py:121-129 | under the invariant, two different rented movies have different titles |
| Registro.DisponivelSemDetentor | video.py:121-129 | under the invariant, an available movie that its title's lookup finds is held by nobody |
| Registro.LocacaoPreservaConsistencia | video.py:127-129 | lending the found, available movie to a client (flag down, title added to that client's map) keeps the invariant |
| Registro.NovoFilmePreservaConsistencia | video.py:93-94 | appending an available movie keeps the invariant |
| Registro.NovoClientePreservaConsistencia | video.py:84-85 | appending a client with an empty map keeps the invariant |
| Video.IdLivreExiste | video.py:60-65 | while fewer than 90000 ids are issued, some value of the draw range is unissued |
| Video.Cliente.constructor | video.py:5-9 | a client keeps the given id and name, stores the phone in display form and starts with no rentals |
| Video.Filme.constructor | video.py:22-25 | a movie keeps the given title and category and starts available |
| Video.DesfechoDaLocacaoCasos | video.py:111-129 | the rental fails with "client not found" iff no name matches; with "movie not found or unavailable" iff a client matches and the first matching movie is missing or out; with the date error iff today + 5 days is past 31/12/9999; otherwise it lends the first matching, available movie to the first matching client, due on the date exactly 5 days after today, as `dd/mm/yyyy` |
| Video.LocacaoRepetidaFalha | video.py:123-129 | once a request has rented a movie, the same request at any later date finds it unavailable |
| Video.LerTelefone | video.py:75-82 | the phone loop stops at the first line that, stripped, is accepted, after rejecting every earlier line; it finds none iff no line is accepted |
| Video.Locadora.constructor | video.py:33-37 | a new shop has no clients and no issued ids, and its catalog is the 25 default movies in order, all available |
| Video.Locadora.AdicionarFilme | video.py:93-94 | appends exactly one fresh, available movie; the ledger gains an available entry; nothing else changes |
| Video.Locadora.CarregarFilmes | video.py:57-58 | appends one fresh, available movie per pair of the list, in order, and keeps the existing movies |
| Video.Locadora.CarregarFilmesPadrao | video.py:39-58 | appends the 25 default (title, category) pairs in order, all available |
| Video.Locadora.GerarIdUnico | video.py:60-65 | returns the first draw not yet issued: it lies in 10000..99999 and was not issued before, and the issued set grows by exactly it |
| Video.Locadora.AdicionarCliente | video.py:84-85 | appends exactly one fresh client with the given id and name, the phone in display form and no rentals |
| Video.Locadora.CadastrarCliente | video.py:70-86 | issues a fresh id first; with an accepted phone line it appends one client with the stripped name, the display form of the first accepted line and no rentals; when the lines run out the id stays issued and no client is added; movies never change |
| Video.Locadora.CadastrarFilme | video.py:88-95 | appends exactly one available movie with the stripped title and category; clients and ids do not change |
| Video.Locadora.EfetivarLocacao | video.py:128-129 | the title joins that client's map with the due date, the movie's flag goes down, every other client and movie is unchanged, and the invariant holds |
| Video.Locadora.ConcluirLocacao | video.py:127-129 | with a due date in range the movie is lent as above; past 31/12/9999 nothing changes |
| Video.Locadora.LocarFilme | video.py:111-129 | the outcome is the one `DesfechoDaLocacao` gives for the stripped, lower-cased inputs; a failure changes no client, movie or ledger entry; a success changes only the found movie's flag and the found client's map, and the invariant holds throughout |

## Left out

- The menu loop and the module-level shop (video.py:134-167) are console dispatch and are not modelled.
- The `__str__` renderers and the listings (video.py:11-13, 27-29, 97-109) only print, and all prompts and messages are dropped.
- The return operation that the menu calls at video.py:160 (`devolver_filme`) is defined nowhere in the source. It has no behaviour to model.
- `random.randint` (video.py:62) is replaced by an arbitrary stream of draws in 10000..99999. That a random stream eventually hits an unissued value is not modelled.
- Video.Locadora.GerarIdUnico: requires some draw of the stream to be unissued. Without one, the Python loop never ends. `Video.IdLivreExiste` shows such a value exists while fewer than 90000 ids are issued.
- Video.Locadora.CadastrarCliente: requires the same of the stream, for the same reason.
- `datetime.now()` (video.py:127) is the date parameter `agora`. The time of day is left out, because adding whole days does not change it and `%d/%m/%Y` does not show it.
- Datas.FormatarData: writes years below 1000 with four digits. `%Y` for such years depends on the platform's C library. They cannot arise from the current date.
- `input()` raising EOFError while the phone is read is modelled as the end of the typed lines: `CadastrarCliente` returns no client and keeps the id issued. Other exceptions are not modelled.
- Texto.SoDigitos: accepts only ASCII digits. Python's `str.isdigit` also accepts other Unicode digits.
- Texto.Minuscula: lowers only A-Z and the Latin-1 capitals U+00C0 to U+00DE (except U+00D7). Other Unicode case mappings of `str.lower` are not modelled.
- The phone check and the display form are modelled on any string. Only accepted (11-digit) numbers ever reach the display form in the source.
