# SafeFlood alert core, in Dafny

SafeFlood shows the Brazilian weather service's (INMET) alerts on a map and lets
signed-in users report alerts of their own. This project models the parts of its
web front end that compute something.

- **The alert → map point pipeline.** It exists in three variants:
  `transformarAlertas`, the `fetchData` loop of `MapContent`, and the older
  `fetchData` loop of `MapComponent`. For each raw alert the pipeline:
  - reads the state code (UF) and the first municipality out of the `municipios` text;
  - takes a coordinate from the alert's GeoJSON geometry;
  - falls back to the 27-entry state table when there is no usable geometry;
  - drops the alert when neither works;
  - classifies the severity text as Alto, Médio or Baixo.

  GeoJSON positions are `[longitude, latitude]` (section 3.1.1 of RFC 7946), so
  every coordinate taken from a geometry is swapped.
- **The dashboard.** It filters points by level and by period (active or past)
  relative to "now", and computes statistics over the unfiltered list.
- **Form validation.** This covers the generic `Formulario` component and its
  submit gate, the alert form's field rules and payload, and the sign-up form's
  e-mail and password policy.
- **Alert submission.** `AddAlerta.handleSubmit` checks the position and the
  token, looks up or creates the user, and sends the alert.
- **The session and the route guard.** `AuthContext` covers mount, login, logout,
  register and confirm. `ProtectedRoute` decides between a redirect and rendering.

How the source is modelled:
- Code that is only expressions becomes functions and lemmas.
- Code that updates state becomes classes whose methods carry `modifies` clauses.
- Loops become methods with invariants. Each is proved equal to a specification
  function, and the properties are proved about that function.
- Regular expressions become explicit predicates (module `Patterns`).
- `JSON.parse` of a geometry becomes the `Geometry` datatype.
- `new Date(text)` becomes a parameter `parse: string -> Option<int>`.
- The services, the JWT decoding and the clock become parameters.
- `localStorage` becomes a `map<string, string>`.

The private helpers of `src/app/utils/transformarAlertas.ts` are the same code
as the exported ones of `src/app/utils/mapUtils.ts`, so module `MapUtils` models
both files. `MapContent` applies the same per-alert rule, and its loop is the
method `TransformarAlertas.Transformar`.

The period filter's 'Passados' is the complement of 'Ativos': it keeps every
point that is not active, including points that have not started yet
(`Dashboard.FuturoEmPassados`).

The `MapComponent` loop is modelled as written. `calcularCentroide` there
divides by the ring's length, so a Polygon whose first ring is empty yields
`[NaN, NaN]`. That array is truthy, so the loop places a marker at an undefined
position instead of falling back to the state table (`MapComponent.PontoComponente`,
`MapComponent.LoopComAnelVazio`). `MapComponent.PontoComponenteCorrigido` is the
evidently intended rule, which treats an undefined mean as no centroid. On every
input without an empty first ring the two agree
(`MapComponent.SemAnelVazioIgualCorrigido`). See "## Findings".

The session and the alert form use different storage keys:
- `AuthContext` stores the access token under `'token'`.
- `AddAlerta` reads `'idToken'`, which nothing among the modelled files writes.

`AddAlerta.LoginThenSubmit` proves the consequence: right after a successful
login, on a browser with no `'idToken'`, a submission is refused as "not
authenticated".

## Model

| member | source | states |
|---|---|---|
| UfTable.TableShape | src/app/utils/mapUtils.ts:5-33 | the fallback table has exactly 27 keys; each key is a two-capital code; 'BR' is not a key |
| UfTable.SortedCodesIncrease | src/app/utils/transformarAlertas.ts:23-31 | the 27 state codes, listed alphabetically, strictly increase, so they are pairwise distinct |
| UfTable.StrictlyIncreasingCard | src/app/utils/mapUtils.ts:5-33 | codes listed in strictly increasing order are as many distinct keys as entries |
| UfTable.KeysAreSortedCodes | src/app/utils/mapUtils.ts:5-33 | the table's keys are exactly the listed codes |
| UfTable.KeysAreCodes | src/app/utils/mapUtils.ts:5-33 | every key has the `[A-Z]{2}` shape and 'BR' is absent |
| UfTable.SaoPaulo | src/app/utils/transformarAlertas.ts:23-31 | 'SP' is a key and resolves to (-22.19, -48.79) |
| UfTable.ZZSemEntrada | src/app/utils/mapUtils.ts:5-33 | 'ZZ' is not a key of the table |
| Text.ContainsIff | src/app/utils/mapUtils.ts:102-107 | `includes` holds exactly when the needle occurs at some index |
| Text.OccursAtWitness | src/app/utils/mapUtils.ts:102-107 | one occurrence is enough for `includes` to hold |
| Text.NoOccurrenceWithoutFirstChar | src/app/utils/mapUtils.ts:102-107 | a text lacking the needle's first character does not include the needle |
| Text.InfixAvoids | src/app/utils/mapUtils.ts:71-75 | a piece of a text free of a separator is itself free of it |
| Text.InfixTrans | src/app/utils/mapUtils.ts:71-75 | a piece of a piece is a piece of the whole |
| Text.BeforeFirst | src/app/utils/mapUtils.ts:71-75 | `split(sep)[0]` is a prefix of the text that contains no `sep`; `sep` occurs at no index before its end and does occur right after it when it is shorter than the text; it is the whole text when `sep` does not occur |
| Text.TrimEndAt | src/app/utils/mapUtils.ts:71-75 | trimming the end of a suffix leaves a piece of the text at the suffix's start followed by whitespace only |
| Text.TrimEnds | src/app/utils/mapUtils.ts:71-75 | trimming the start and then the end leaves no whitespace at either end |
| Text.TrimCuts | src/app/utils/mapUtils.ts:71-75 | the trimmed text sits in the original after exactly its leading whitespace and is followed only by whitespace |
| Text.Trim | src/app/utils/mapUtils.ts:71-75 | `trim()` is the piece of the text at some index with only whitespace before and after it, and no whitespace at its own ends; it keeps a text that has none |
| Text.ToLower | src/app/utils/mapUtils.ts:102-107 | `toLowerCase()` keeps the length and lowers each character |
| Text.ToUpper | src/app/components/Map/AddAlerta/AddAlerta.tsx:136 | `toUpperCase()` never shortens the text; without a 'ß' (which becomes 'SS') it keeps the length and raises each character |
| Text.ToUpperAppend | src/app/components/Map/AddAlerta/AddAlerta.tsx:136 | upper-casing distributes over concatenation |
| Text.UpperOfCapitals | src/app/components/Map/AddAlerta/AddAlerta.tsx:136 | upper-casing a text of ASCII capitals changes nothing |
| Text.UpperIdempotent | src/app/components/Map/AddAlerta/AddAlerta.tsx:136 | upper-casing twice is the same as once |
| Lists.FilterMapLength | src/app/utils/transformarAlertas.ts:86-117 | a drop-or-keep-one loop yields at most one output per input |
| Lists.FilterMapAppend | src/app/utils/transformarAlertas.ts:86-117 | the loop distributes over concatenation, so outputs keep the order of their inputs |
| Lists.FilterMapMembership | src/app/utils/transformarAlertas.ts:86-117 | every output is the image of some input |
| Lists.FilterMembership | src/app/components/Dashboard/DashboardContent/DashboardContent.tsx:19-28 | an element survives `filter` exactly when it is in the list and passes the test |
| Lists.FilterLength | src/app/components/Dashboard/DashboardContent/DashboardContent.tsx:19-28 | `filter` never lengthens a list |
| Lists.FilterAll | src/app/components/Dashboard/DashboardContent/DashboardContent.tsx:23-26 | a test every element passes keeps the list unchanged |
| Lists.FilterSplit | src/app/components/Dashboard/DashboardContent/DashboardContent.tsx:24-26 | filtering by a test and by its negation splits the list's length |
| Lists.FilterFilter | src/app/components/Dashboard/DashboardContent/DashboardContent.tsx:19-28 | filtering twice is filtering once by the conjunction |
| Lists.FilterCongruent | src/app/components/Dashboard/DashboardContent/DashboardContent.tsx:30-36 | tests that agree on every element filter alike |
| Lists.FilterIsSubsequence | src/app/components/Dashboard/DashboardContent/DashboardContent.tsx:19-28 | `filter` returns an order-preserving subsequence of its input |
| MapUtils.FirstUfMatch | src/app/utils/mapUtils.ts:64-68 | the regular expression engine's leftmost match: the pattern matches there and at no earlier index |
| MapUtils.ExtrairUF | src/app/utils/mapUtils.ts:64-68 | 'BR' for absent or empty text or when no " - XX" occurs, else the two capitals of the leftmost match, so always 'BR' or a two-capital code |
| MapUtils.PrimeiroSegmentoForma | src/app/utils/mapUtils.ts:71-75 | the first municipality is a piece of the text with no ',', no ' - ' and no surrounding whitespace |
| MapUtils.CorteForma | src/app/utils/mapUtils.ts:71-75 | trimming the part before the first separator gives a piece of the text with no separator and no surrounding whitespace |
| MapUtils.ExtrairPrimeiroMunicipio | src/app/utils/transformarAlertas.ts:39-43 | the sentinel 'Local não especificado' for absent or empty text; otherwise a piece of the text with no ',', no ' - ' and no surrounding whitespace |
| MapUtils.DescricaoSintetizada | src/app/utils/transformarAlertas.ts:97 | the synthesized description is 'Alerta para ', then the municipality, then ' e região', 21 characters longer than the municipality |
| MapUtils.PrimeiroSegmentoIdempotent | src/app/utils/mapUtils.ts:71-75 | extracting the first municipality from its own result changes nothing |
| MapUtils.CalcularCentroide | src/app/utils/mapUtils.ts:78-99 | the first vertex of ring 0 (of polygon 0 for a MultiPolygon), swapped to (lat, lng); null for any other geometry or empty coordinates |
| MapUtils.GetNivelRisco | src/app/utils/transformarAlertas.ts:63-68 | Alto exactly when the lower-cased text includes 'perigo'; Médio exactly when it includes 'atenção' and not 'perigo'; Baixo otherwise, including for the empty text |
| MapUtils.PerigoIsAlto | src/app/utils/mapUtils.ts:102-107 | 'Perigo Potencial' and 'Grande Perigo' are Alto |
| MapUtils.AtencaoIsMedio | src/app/utils/mapUtils.ts:102-107 | 'Atenção' is Médio |
| MapUtils.ObservacaoIsBaixo | src/app/utils/mapUtils.ts:102-107 | a text with neither word is Baixo |
| MapUtils.ObservacaoSemPalavras | src/app/utils/mapUtils.ts:102-107 | lower-cased 'observação' contains neither 'perigo' nor 'atenção' |
| MapUtils.ObservacaoSemPerigo | src/app/utils/mapUtils.ts:102-105 | lower-cased 'observação' does not contain 'perigo' |
| MapUtils.ObservacaoSemAtencao | src/app/utils/mapUtils.ts:102-106 | lower-cased 'observação' does not contain 'atenção' |
| MapUtils.OwnLabelsAreBaixo | src/app/utils/mapUtils.ts:102-107 | the classifier reads its own labels 'Alto', 'Médio', 'Baixo' as Baixo |
| MapUtils.ExtrairUFExamples | src/app/utils/transformarAlertas.ts:33-37 | 'Campinas - SP' gives 'SP' |
| MapUtils.ExtrairUFPrimeiroDaLista | src/app/utils/transformarAlertas.ts:33-37 | of 'Campinas - SP, Valinhos - RJ' the first code, 'SP', counts |
| MapUtils.ExtrairUFSemCodigo | src/app/utils/transformarAlertas.ts:33-37 | a text without a " - XX" gives 'BR' |
| TransformarAlertas.Descricao | src/app/utils/transformarAlertas.ts:97 | the description is never empty: the alert's own text when it has one, else 'Alerta para <municipality> e região' |
| TransformarAlertas.ToPonto | src/app/utils/transformarAlertas.ts:86-117 | an alert yields a point exactly when it has a centroid or a known state; the point copies id and dates, classifies the level, takes the alert's description or the synthesized one, and sits at the centroid, else at the state's table entry (never 'BR') |
| TransformarAlertas.PontoDe | src/app/utils/transformarAlertas.ts:88-115 | one pass of the loop body computes the alert's point, or none |
| TransformarAlertas.Transformar | src/app/utils/transformarAlertas.ts:86-117 | the push loop returns the alerts' points in order |
| TransformarAlertas.AlertasDe | src/app/utils/transformarAlertas.ts:72-85 | the `hoje ++ futuro` of a wrapper first element; a plain array as is; an object as a singleton; nothing otherwise |
| TransformarAlertas.TransformarAlertasDe | src/app/utils/transformarAlertas.ts:70-118 | the whole function: the points of the alerts its input shape holds |
| TransformarAlertas.PontosLength | src/app/utils/transformarAlertas.ts:86-117 | no more points than alerts, and none from no alerts |
| TransformarAlertas.PontosAppend | src/app/utils/transformarAlertas.ts:86-117 | points keep the order of their alerts |
| TransformarAlertas.PontosWellFormed | src/app/utils/transformarAlertas.ts:88-115 | every point has a description and sits at some alert's centroid or at a state's table entry other than 'BR' |
| TransformarAlertas.SemCentroideNemEstado | src/app/utils/transformarAlertas.ts:91-116 | an alert with no centroid and a state code missing from the table yields no point |
| TransformarAlertas.CidadeZZ | src/app/utils/transformarAlertas.ts:88 | 'Cidade - ZZ' reads as state code 'ZZ' |
| TransformarAlertas.UnknownStateDropped | src/app/utils/transformarAlertas.ts:103-116 | an alert with no geometry and an unknown state code is dropped |
| TransformarAlertas.SaoPauloFallback | src/app/utils/transformarAlertas.ts:103-115 | an alert with no centroid whose state code is 'SP' becomes one point, at (-22.19, -48.79), with its own severity's level |
| MapContent.AlertasDoFeed | src/app/components/Map/MapContent/MapContent.tsx:50-53 | `data[0].hoje ++ data[0].futuro`, a missing part read as empty; any other shape gives no alerts; `null` throws |
| MapContent.AlertasDaResposta | src/app/components/Map/MapContent/MapContent.tsx:38-53 | the fetch delivers alerts exactly when the request succeeds with a 2xx status and a non-null JSON body |
| MapContent.MapContentState.constructor | src/app/components/Map/MapContent/MapContent.tsx:23-28 | not mounted, no points, loading, no error, centred on Brazil |
| MapContent.MapContentState.Mount | src/app/components/Map/MapContent/MapContent.tsx:31-33 | the first effect marks the component mounted and changes nothing else |
| MapContent.MapContentState.FetchData | src/app/components/Map/MapContent/MapContent.tsx:38-102 | on success, the points of the alerts, no error, and the centre moved to the first point only when there is one; on any failure, no points and the error message; loading ends either way |
| MapContent.MapContentState.Effect | src/app/components/Map/MapContent/MapContent.tsx:35-108 | before mount it changes nothing, and the component stays unmounted; after it, the screen is the one the fetch determines |
| MapContent.TelaAposBusca | src/app/components/Map/MapContent/MapContent.tsx:110-159 | an error screen exactly when the fetch fails, and the map whenever it succeeds, with the pipeline's points; centred on the first point when there is one, as before otherwise |
| MapContent.CentroAposBusca | src/app/components/Map/MapContent/MapContent.tsx:89-93 | after a fetch the map is centred where it was, on some alert's centroid, or on a state's table entry |
| MapContent.PlainArrayShowsNothing | src/app/components/Map/MapContent/MapContent.tsx:50-53 | a bare array of alerts, which `transformarAlertas` plots, gives this component no alerts |
| MapContent.HojeOnly | src/app/components/Map/MapContent/MapContent.tsx:50-53 | a wrapper holding only `hoje` gives exactly today's alerts |
| MapComponent.Lats | src/app/components/Map/MapComponent/MapComponent.tsx:112-115 | the second component of each position, in order |
| MapComponent.Lngs | src/app/components/Map/MapComponent/MapComponent.tsx:112-115 | the first component of each position, in order |
| MapComponent.MediaDoAnel | src/app/components/Map/MapComponent/MapComponent.tsx:108-120 | the accumulation loop and division give the vertex mean: latitude from the second components, longitude from the first; undefined for an empty ring |
| MapComponent.SomaLimites | src/app/components/Map/MapComponent/MapComponent.tsx:108-115 | a sum of n numbers in [lo, hi] lies in [n·lo, n·hi] |
| MapComponent.MediaLimites | src/app/components/Map/MapComponent/MapComponent.tsx:117-120 | the mean of numbers in [lo, hi] lies in [lo, hi] |
| MapComponent.QuocienteLimites | src/app/components/Map/MapComponent/MapComponent.tsx:117-120 | a total in [n·lo, n·hi] divided by a positive n lies in [lo, hi] |
| MapComponent.MediaNosLimites | src/app/components/Map/MapComponent/MapComponent.tsx:106-121 | the mean centroid of a non-empty ring lies in the bounding box of its vertices |
| MapComponent.MediaDeUmVertice | src/app/components/Map/MapComponent/MapComponent.tsx:106-121 | a one-vertex ring averages to that vertex, swapped |
| MapComponent.FechamentoContaDuasVezes | src/app/components/Map/MapComponent/MapComponent.tsx:108-120 | a closed ring counts its repeated closing vertex twice: the closed triangle averages to longitude 1, not 4/3 |
| MapComponent.Flat | src/app/components/Map/MapComponent/MapComponent.tsx:125 | `flat(1)` is empty exactly when every polygon is empty, and starts with ring 0 of polygon 0 when there is one |
| MapComponent.FlatSkipsEmpty | src/app/components/Map/MapComponent/MapComponent.tsx:125-126 | `flat(1)[0]` is the first ring of the first polygon that has a ring |
| MapComponent.CentroideMedio | src/app/components/Map/MapComponent/MapComponent.tsx:102-145 | the mean of ring 0 (of the first ring of `flat(1)` for a MultiPolygon); null for other geometries, empty coordinates and an empty `flat(1)` |
| MapComponent.AnelVazioIndefinido | src/app/components/Map/MapComponent/MapComponent.tsx:106-121 | a Polygon whose first ring is empty gives a centroid of two undefined numbers, as the code is written |
| MapComponent.CalcularCentroideMedio | src/app/components/Map/MapComponent/MapComponent.tsx:102-145 | the imperative centroid computes the mean centroid |
| MapComponent.ExtrairUFComEspaco | src/app/components/Map/MapComponent/MapComponent.tsx:89-93 | 'BR' when no " - XX " (with a trailing space) occurs, else the leftmost match's capitals |
| MapComponent.ComEspacoImplicaSemEspaco | src/app/components/Map/MapComponent/MapComponent.tsx:90 | whenever the stricter pattern matches, the one of mapUtils.ts matches at the same place or earlier |
| MapComponent.CodigoNoFim | src/app/components/Map/MapComponent/MapComponent.tsx:89-93 | 'Campinas - SP' gives 'BR' here but 'SP' in mapUtils.ts |
| MapComponent.PontoComponente | src/app/components/Map/MapComponent/MapComponent.tsx:176-207 | as written: a marker exactly when the alert has any centroid, the undefined mean of an empty ring included, or a known state; always 'Médio', always the synthesized description, with the alert's id, dates, state code and first municipality; at the centroid, else at the state's table entry |
| MapComponent.CampinasComEspaco | src/app/components/Map/MapComponent/MapComponent.tsx:89-93 | 'Campinas - SP (3509502)' gives 'SP' under the trailing-space pattern |
| MapComponent.AnelVazioEmNaN | src/app/components/Map/MapComponent/MapComponent.tsx:181-193 | an alert whose polygon's first ring is empty gets a marker at the undefined position although its state 'SP' has a table entry |
| MapComponent.PontoComponenteCorrigido | src/app/components/Map/MapComponent/MapComponent.tsx:176-207 | the intended rule: a marker exactly when there is a defined mean or a known state; every marker has a defined position, at the mean, else at the table entry |
| MapComponent.CorrigidoConcorda | src/app/components/Map/MapComponent/MapComponent.tsx:176-207 | the intended rule and the code agree on every alert whose centroid is not the undefined mean |
| MapComponent.CorrigidoUsaTabela | src/app/components/Map/MapComponent/MapComponent.tsx:195-206 | under the intended rule, an alert with an undefined mean and a known state is placed on the state's table entry |
| MapComponent.AnelVazioUsaTabela | src/app/components/Map/MapComponent/MapComponent.tsx:195-206 | under the intended rule, the empty-ring alert is placed on the 'SP' table entry, not at an undefined coordinate |
| MapComponent.PontosComponenteTamanho | src/app/components/Map/MapComponent/MapComponent.tsx:174-208 | no more points than alerts |
| MapComponent.PontosComponenteOrigem | src/app/components/Map/MapComponent/MapComponent.tsx:174-208 | every marker the loop yields is 'Médio' and sits at some alert's centroid, possibly undefined, or at a state's table entry |
| MapComponent.PontosCorrigidosOrigem | src/app/components/Map/MapComponent/MapComponent.tsx:174-208 | under the intended rule every marker has a defined position, is 'Médio', and sits at some alert's mean or at a state's table entry |
| MapComponent.SemAnelVazioIgualCorrigido | src/app/components/Map/MapComponent/MapComponent.tsx:174-208 | when no alert has an undefined mean, the loop as written and the intended rule yield the same markers |
| MapComponent.PontoDoAlerta | src/app/components/Map/MapComponent/MapComponent.tsx:177-207 | the loop body computes the per-alert point |
| MapComponent.MunicipiosPasso | src/app/components/Map/MapComponent/MapComponent.tsx:176-177 | a loop step over an alert with `municipios` keeps "every alert so far has municipios" |
| MapComponent.TransformarComponente | src/app/components/Map/MapComponent/MapComponent.tsx:174-208 | the loop yields every alert's point in order, or fails at an alert without `municipios` |
| MapComponent.LoopComAnelVazio | src/app/components/Map/MapComponent/MapComponent.tsx:176-193 | the loop over one alert with an undefined mean yields one marker, at the undefined position |
| MapComponent.AlertasDoFeed | src/app/components/Map/MapComponent/MapComponent.tsx:171-172 | `data.hoje`, or nothing for an array; `null` throws |
| MapComponent.AlertasDaResposta | src/app/components/Map/MapComponent/MapComponent.tsx:163-172 | alerts exactly when the request succeeds with a 2xx status and a non-null JSON body, and then the alerts `data.hoje` holds |
| MapComponent.MapComponentState.constructor | src/app/components/Map/MapComponent/MapComponent.tsx:148-151 | not mounted, no points, loading, no error |
| MapComponent.MapComponentState.FetchData | src/app/components/Map/MapComponent/MapComponent.tsx:162-218 | on success, the loop's points and no error; on any failure the error message while the previous points stay; loading ends |
| MapComponent.MapComponentState.Effect | src/app/components/Map/MapComponent/MapComponent.tsx:159-225 | after mount and a fetch, the error screen when it fails, else the map at the fixed centre with the fetched points |
| MapComponent.WrapperArrayShowsNothing | src/app/components/Map/MapComponent/MapComponent.tsx:172 | the array feed that MapContent reads shows no markers here |
| Dashboard.AtivoSe | src/app/components/Dashboard/DashboardContent/DashboardContent.tsx:20-22 | a point is active exactly when both dates parse and now lies between them, bounds included |
| Dashboard.FiltradosMembership | src/app/components/Dashboard/DashboardContent/DashboardContent.tsx:19-28 | a point is listed exactly when it is one of the points and matches both facets |
| Dashboard.FiltradosSubsequencia | src/app/components/Dashboard/DashboardContent/DashboardContent.tsx:19-28 | the list is an order-preserving subsequence of the points |
| Dashboard.TodosTodos | src/app/components/Dashboard/DashboardContent/DashboardContent.tsx:23-26 | with both facets on 'Todos' every point is listed |
| Dashboard.NivelExato | src/app/components/Dashboard/DashboardContent/DashboardContent.tsx:23 | with a level chosen, every listed point has exactly that level |
| Dashboard.FuturoEmPassados | src/app/components/Dashboard/DashboardContent/DashboardContent.tsx:24-26 | a point that has not started is listed under 'Passados' and not under 'Ativos' |
| Dashboard.AtivosPassadosParticao | src/app/components/Dashboard/DashboardContent/DashboardContent.tsx:24-26 | 'Ativos' and 'Passados' partition the points of the chosen level |
| Dashboard.NiveisSomamTotal | src/app/components/Dashboard/DashboardContent/DashboardContent.tsx:33-35 | the three level counts add up to the number of points |
| Dashboard.EstatisticasCoerentes | src/app/components/Dashboard/DashboardContent/DashboardContent.tsx:30-36 | total is the number of points; the levels sum to it; 'ativos' is the length of the ('Todos', 'Ativos') list and at most the total; no points give all zeros |
| Dashboard.ContagemPorNivel | src/app/components/Dashboard/DashboardContent/DashboardContent.tsx:30-36 | each level count is the length of the list under that level and 'Todos' |
| Patterns.StrongPasswordPolicy | src/app/register/page.tsx:13-16 | the password pattern holds exactly for one-line values of at least 8 characters with a small letter, a capital, a digit and a listed special character |
| Patterns.PrefixOneLine | src/app/register/page.tsx:14 | on a one-line value each lookahead finds exactly what the value contains |
| Patterns.EmailShape | src/app/register/page.tsx:33 | an accepted e-mail has no whitespace, exactly one '@' not at the start, and a '.' inside the domain |
| Patterns.EmailFromShape | src/app/register/page.tsx:33 | conversely, every such value is accepted |
| Patterns.EmailExamples | src/app/register/page.tsx:33 | 'ana@chuva.br' is accepted; a missing dot, a space or an empty local part is refused |
| Patterns.PasswordAccepted | src/app/register/page.tsx:14 | 'Chuva#2025' meets the policy |
| Patterns.PasswordWithoutCapital | src/app/register/page.tsx:14 | a password without a capital is refused |
| Patterns.PasswordTooShort | src/app/register/page.tsx:14 | a password shorter than 8 characters is refused |
| Patterns.TwoCapitalsUpper | src/app/components/Map/AddAlerta/AddAlerta.tsx:136 | a value the UF pattern accepts is unchanged by `toUpperCase()` |
| Patterns.OneLineRejectsBreak | src/app/components/Map/AddAlerta/AddAlerta.tsx:173 | a `.{min,max}` pattern refuses any value containing a line break |
| Formulario.ValidateField | src/app/components/Formulario/Formulario.tsx:40-50 | no error exactly when the value is given (or not required) and matches the pattern; 'Este campo é obrigatório' for an empty required value, before any pattern; otherwise the field's message, or 'Valor inválido' |
| Formulario.NewErrorsKeys | src/app/components/Formulario/Formulario.tsx:63-69 | the submit's error map has a key exactly for the fields whose value is refused, each holding one of their messages |
| Formulario.NewErrorsEmpty | src/app/components/Formulario/Formulario.tsx:71-76 | the error map is empty exactly when every field is valid |
| Formulario.ChangeKeepsSelections | src/app/components/Formulario/Formulario.tsx:52-57 | a change a select can make keeps every select value empty or one of its options |
| Formulario.SubmittedSelect | src/app/components/Formulario/Formulario.tsx:97-107 | a required select of a submitted form holds one of its options |
| Formulario.SubmittedField | src/app/components/Formulario/Formulario.tsx:64-76 | in a submitted form every required field is present and non-empty and every pattern matches |
| Formulario.FreeFieldValid | src/app/components/Formulario/Formulario.tsx:49 | a field with neither `required` nor a pattern is always valid |
| Formulario.FormularioState.constructor | src/app/components/Formulario/Formulario.tsx:37-38 | the values start as the initial ones and there are no errors |
| Formulario.FormularioState.HandleChange | src/app/components/Formulario/Formulario.tsx:52-57 | only the changed field's value and error are updated; every other entry stays |
| Formulario.FormularioState.HandleSubmit | src/app/components/Formulario/Formulario.tsx:59-77 | the errors become the map of refused fields, and the data is passed on exactly when every field is valid |
| AddAlerta.Papel | src/app/components/Map/AddAlerta/AddAlerta.tsx:60 | the 'custom:role' claim when non-empty, else 'user' |
| AddAlerta.CamposAlertaValidos | src/app/components/Map/AddAlerta/AddAlerta.tsx:154-210 | a validated alert form has a one-line title and municipality of 1 to 100 characters, a description of 1 to 500, a level, and a two-capital state code |
| AddAlerta.NivelDoFormulario | src/app/components/Map/AddAlerta/AddAlerta.tsx:181-185 | the level sent is one of ALTO, MEDIO, BAIXO |
| AddAlerta.DescricaoDeDuasLinhas | src/app/components/Map/AddAlerta/AddAlerta.tsx:170-175 | a two-line description is refused with the length message |
| AddAlerta.Payload | src/app/components/Map/AddAlerta/AddAlerta.tsx:125-139 | the alert ends four hours after it starts, now; its coordinates are the chosen position; its fields are the form's, the state code as typed |
| AddAlerta.Submeter | src/app/components/Map/AddAlerta/AddAlerta.tsx:44-152 | refused with no position or no 'idToken'; a token that does not decode fails with the decoder's message, one without username or e-mail fails as invalid, and neither creates nor sends; a user is created from a decoded token's claims exactly when the lookup finds nothing or fails in a way its `catch` swallows; a lookup error it rethrows ends the submission with that error's message; an alert is sent only with the found user's id, or else the id the creation returned; it is done exactly when the alert is sent and accepted |
| AddAlerta.Buscar | src/app/components/Map/AddAlerta/AddAlerta.tsx:70-143 | after a valid token: a user is created from the claims exactly when the lookup finds nothing or fails in a way its `catch` swallows; a found user means nothing is created and an alert is sent exactly when the user has an id; a rethrown lookup error ends with its message; the alert is sent with the found user's id, or else with the id the creation returned; done exactly when the alert is sent and accepted |
| AddAlerta.Criar | src/app/components/Map/AddAlerta/AddAlerta.tsx:90-143 | the user created carries the token's username, e-mail and role; an alert is sent only with the id the creation returned |
| AddAlerta.Enviar | src/app/components/Map/AddAlerta/AddAlerta.tsx:120-143 | an alert is sent exactly when there is a user with a non-zero id, and it is the payload for that id; done exactly when it is accepted |
| AddAlerta.BuscarEEnviar | src/app/components/Map/AddAlerta/AddAlerta.tsx:70-143 | the imperative lookup, creation and send reach the outcome `Buscar` specifies |
| AddAlerta.NaoEncontradoCria | src/app/components/Map/AddAlerta/AddAlerta.tsx:71-97 | a lookup failing with 404, or with any error that is not an axios error with another status, creates the user from the token's claims |
| AddAlerta.ImportacoesAusentes | src/app/components/Map/AddAlerta/AddAlerta.tsx:9 | as written, `findByEmail` and `createUser` are bindings `userService.ts` does not export; the `TypeError` calling them throws leads, for valid claims, to the generic creation message with nothing sent |
| AddAlerta.UsuarioEncontradoConclui | src/app/components/Map/AddAlerta/AddAlerta.tsx:70-146 | with the services bound to `userService`'s methods, a user found with an id and an accepted alert complete the submission, sending the alert for that user and creating none |
| AddAlerta.OutroStatusFalha | src/app/components/Map/AddAlerta/AddAlerta.tsx:74-87 | a lookup failing with another status shows its message, and nothing is created or sent |
| AddAlerta.EnviadoValido | src/app/components/Map/AddAlerta/AddAlerta.tsx:125-139 | every alert sent has a two-capital state code, titles and descriptions within their lengths, and a 14 400 000 ms window |
| AddAlerta.AddAlertaState.constructor | src/app/components/Map/AddAlerta/AddAlerta.tsx:31-34 | the form is closed, not submitting, with no error and no position |
| AddAlerta.AddAlertaState.SelecionarPosicao | src/app/components/Map/AddAlerta/AddAlerta.tsx:34 | a map click sets the position and nothing else |
| AddAlerta.AddAlertaState.HandleAddAlerta | src/app/components/Map/AddAlerta/AddAlerta.tsx:36-42 | a signed-out user is sent to '/login'; a signed-in one gets the form opened |
| AddAlerta.AddAlertaState.HandleSubmit | src/app/components/Map/AddAlerta/AddAlerta.tsx:44-152 | the imperative submit makes exactly the calls of the submission; the submitting flag is cleared on every path inside the `try`; on success the form closes and the position is cleared |
| AddAlerta.LoginThenSubmit | src/app/components/Map/AddAlerta/AddAlerta.tsx:50-54 | after a successful login that stored 'token', a submission still finds no 'idToken' and is refused as not authenticated |
| Register.Submeter | src/app/register/page.tsx:54-71 | `register` is called exactly when the two passwords are equal, with the form's values; a mismatch alerts 'As senhas não coincidem.'; '/confirm-email' follows exactly a successful call, an alert with the error any failure |
| Register.RegistroValidado | src/app/register/page.tsx:18-58 | everything `register` is called with has a user name, an accepted e-mail, and a strong password equal to its confirmation |
| Register.ConfirmacaoSemPadrao | src/app/register/page.tsx:45-51 | the confirmation has no pattern: any non-empty value passes its own check |
| Register.SenhaFracaRecusada | src/app/register/page.tsx:37-44 | a weak password is refused with the policy's message |
| Register.VazioObrigatorio | src/app/register/page.tsx:18-52 | every field of the form is required |
| AuthContext.UsuarioDe | src/app/context/AuthContext.tsx:36-39 | a user exactly when decoding succeeded; the name is the 'username' claim when non-empty, else 'sub'; the e-mail is the 'email' claim |
| AuthContext.AuthState.constructor | src/app/context/AuthContext.tsx:26-27 | signed out, with no user |
| AuthContext.AuthState.Mount | src/app/context/AuthContext.tsx:29-41 | a stored 'token' signs the user in with the user decoded from it; otherwise nothing changes |
| AuthContext.AuthState.Login | src/app/context/AuthContext.tsx:43-62 | an access token is stored under 'token' and signs the user in; a missing token or a rejection is reported and leaves storage and state unchanged |
| AuthContext.AuthState.Logout | src/app/context/AuthContext.tsx:82-92 | a successful logout removes 'token' and signs out; a failed one is reported and changes nothing |
| AuthContext.AuthState.Register | src/app/context/AuthContext.tsx:64-71 | the service's rejection is passed on, and the session is untouched |
| AuthContext.AuthState.Confirm | src/app/context/AuthContext.tsx:73-80 | the service's rejection is passed on, and the session is untouched |
| AuthContext.ReloadKeepsSession | src/app/context/AuthContext.tsx:29-54 | after a login, a reloaded provider restores the same user |
| AuthContext.ReloadAfterLogout | src/app/context/AuthContext.tsx:29-41 | after a logout, a reloaded provider finds no session |
| AuthContext.UsernameFallsBackToSub | src/app/context/AuthContext.tsx:37 | a token without a 'username' claim names the user by 'sub' |
| ProtectedRoute.Redirecionamento | src/app/components/ProtectedRoute/ProtectedRoute.tsx:11-17 | '/login' when signed out; '/' when an administrator is required and the user is not one; no redirect otherwise |
| ProtectedRoute.RenderSemRedirecionamento | src/app/components/ProtectedRoute/ProtectedRoute.tsx:11-23 | the children are rendered exactly when there is no redirect, and only for a signed-in user |
| ProtectedRoute.PadraoSoExigeLogin | src/app/components/ProtectedRoute/ProtectedRoute.tsx:7 | with the default `requireAdmin`, being signed in is all that counts |
| ProtectedRoute.AdminNuncaRenderiza | src/app/components/ProtectedRoute/ProtectedRoute.tsx:8-19 | because the context never provides `isAdmin`, an administrator-only route never renders, and sends a signed-in user to '/' |

## Left out

- src/app/api/inmet-alertas/route.ts is not part of this model. It fetches from external services, runs `Promise.all` and keeps a process-wide cache.
- The services (`userService.ts`, `authService.ts`, `alertaService.ts`) and `config/api.ts` are not modelled. Their answers are the parameters of `AddAlerta.Servicos`, `AuthContext.AuthState.Login` and `Register.Submeter`. `AddAlerta.Servicos` stands for the methods of `userService`, the binding the code evidently intends (see "## Findings").
- `JSON.parse` of the geometry text is the `Geometry` datatype. A text that does not parse is `Unparsable`.
- Feed shapes outside `Types.Feed` are not represented, so their failures are not modelled:
  - a `null` element in the alert list or in `hoje`/`futuro` makes `alerta.municipios` throw a TypeError. `transformarAlertas` then throws, and `MapContent` and `MapComponent` show their error screen;
  - a `hoje` or `futuro` that is truthy but not an array makes the spread in `transformarAlertas` and `MapContent` throw a TypeError (a number or an object) or spread a string into its characters.
- Decoding a JWT (`atob`, `JSON.parse`) is a parameter returning the claims. Claims whose value is not a string are not represented.
- Dates are a parameter `parse: string -> Option<int>`. An invalid date is `None`.
- AddAlerta.Payload: `dataInicio` and `dataFim` are milliseconds, not the `toISOString()` texts the source sends. The clock is a parameter.
- Coordinates are reals. IEEE rounding is not modelled. The NaN of an empty ring is modelled as `Media.Indefinida`, not as a number. A marker at `Indefinida` stands for the `[NaN, NaN]` marker the code hands to Leaflet; what Leaflet then draws is not modelled.
- String length is counted in characters. JavaScript counts UTF-16 code units for `.{1,100}`, which differs only for characters outside the Basic Multilingual Plane.
- Text.ToLower, Text.ToUpper: case mapping covers the ASCII and Latin-1 ranges only ('ß' upper-cases to "SS", 'ÿ' and 'µ' to their capitals outside Latin-1). Other scripts and locale-specific rules are not modelled; the severity words and state codes need none of them.
- The browser's own `required` and `type="email"` checks, which run before `onSubmit`, are not modelled. Only the component's own validation is.
- React rendering, the `useEffect` scheduling, the five-minute `setInterval` refresh, Leaflet markers and icons, `window.location.reload()` and console logging are not modelled. `Effect` models one run of `fetchData`.
- The text of a JavaScript exception is an opaque string. Failures carry it through `Result`.
- Calling `useAuth` outside its provider (which throws) is not modelled.
- Presentation-only pages and components are not part of this model.

## Findings

| source | as written | input that shows it | evidently intended | confidence | as-written member | corrected member |
|---|---|---|---|---|---|---|
| src/app/components/Map/MapComponent/MapComponent.tsx:117-120 | the mean divides by the ring's length with no guard. An empty first ring gives `[NaN, NaN]`, a truthy array, so a marker is placed at NaN instead of using the state fallback (`MapComponent.AnelVazioEmNaN`, `MapComponent.LoopComAnelVazio`) | an alert with `poligono` = `{"type":"Polygon","coordinates":[[]]}` and `municipios` = "Campinas - SP (3509502)" | an empty ring counts as no centroid, so the alert falls back to its state's table entry (`MapComponent.AnelVazioUsaTabela`) | not executed | MapComponent.AnelVazioEmNaN | MapComponent.PontoComponenteCorrigido |
| src/app/components/Map/AddAlerta/AddAlerta.tsx:9 | imports `findByEmail` and `createUser` by name, but `src/app/services/userService.ts` exports only the object `userService`, so both bindings are `undefined`. Calling them throws a `TypeError`; the lookup's `catch` swallows it and the creation's `catch` turns it into the generic message | any submission with a position, an 'idToken' whose claims carry a username and an e-mail, and a valid form | call `userService.findByEmail` and `userService.createUser`, so a found user gets the alert sent | not executed; the TypeScript compiler would also report the missing exports | AddAlerta.ImportacoesAusentes | AddAlerta.UsuarioEncontradoConclui |
