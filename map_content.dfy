/** src/app/components/Map/MapContent/MapContent.tsx: the map component's
    state and its `fetchData` effect. The feed is read as
    `[{ hoje, futuro }]`; each alert is turned into a point by the same rule
    as `transformarAlertas` (the helpers of mapUtils.ts). */
module MapContent {
  import opened Wrappers
  import opened Types
  import opened UfTable
  import opened MapUtils
  import opened Lists
  import opened TransformarAlertas

  const FalhaAoCarregar := "Falha ao carregar alertas meteorológicos"

  /** `[...(data[0]?.hoje || []), ...(data[0]?.futuro || [])]`. Indexing
      `null` throws; any other value `Feed` represents without a wrapper
      first element gives no alerts. */
  function AlertasDoFeed(data: Feed): (r: Result<seq<AlertaINMET>, string>)
    ensures r.Failure? <==> data.Null?
    ensures data.List? && |data.entries| > 0 && data.entries[0].Bucket? ==>
      r == Success(data.entries[0].hoje.GetOr([]) + data.entries[0].futuro.GetOr([]))
    ensures data.List? && (|data.entries| == 0 || data.entries[0].Alert?) ==> r == Success([])
    ensures data.Object? || data.Primitive? ==> r == Success([])
  {
    match data
    case Null => Failure("TypeError")
    case List(es) =>
      if |es| > 0 && es[0].Bucket? then Success(es[0].hoje.GetOr([]) + es[0].futuro.GetOr([]))
      else Success([])
    case _ => Success([])
  }

  /** The alerts a fetch delivers, or the failure that aborts it: a network
      error, a non-2xx status, a body that is not JSON, or a `null` body. */
  function AlertasDaResposta(res: Resposta): (r: Result<seq<AlertaINMET>, string>)
    ensures r.Success? <==> res.Resposta? && res.ok && res.corpo.Some? && !res.corpo.value.Null?
    ensures r.Success? ==> r == AlertasDoFeed(res.corpo.value)
  {
    match res
    case FalhaDeRede => Failure("fetch")
    case Resposta(ok, _, corpo) =>
      if !ok then Failure("Erro na API")
      else if corpo.None? then Failure("json")
      else AlertasDoFeed(corpo.value)
  }

  /** What the component renders. */
  datatype Tela =
    | Nada                                     // not yet mounted
    | Carregando
    | Erro(mensagem: string)
    | Mapa(centro: LatLng, marcadores: seq<PontoDeRisco>)  // an empty list shows "Nenhum alerta encontrado no momento"

  class MapContentState {
    var mounted: bool
    var pontos: seq<PontoDeRisco>
    var loading: bool
    var error: Option<string>
    var mapCenter: LatLng

    /** The initial state of the `useState` hooks. */
    constructor()
      ensures !mounted && pontos == [] && loading && error == None && mapCenter == Center
    {
      mounted := false;
      pontos := [];
      loading := true;
      error := None;
      mapCenter := Center;
    }

    /** The first effect: `setMounted(true)`. */
    method Mount()
      modifies this
      ensures mounted
      ensures pontos == old(pontos) && loading == old(loading) && error == old(error) && mapCenter == old(mapCenter)
    {
      mounted := true;
    }

    /** `fetchData`, given what the request returned. */
    method FetchData(res: Resposta)
      modifies this
      ensures mounted == old(mounted) && !loading
      ensures AlertasDaResposta(res).Success? ==>
        && pontos == Pontos(AlertasDaResposta(res).value)
        && error == None
        && mapCenter == (if pontos == [] then old(mapCenter) else LatLng(pontos[0].latitude, pontos[0].longitude))
      ensures AlertasDaResposta(res).Failure? ==>
        pontos == [] && error == Some(FalhaAoCarregar) && mapCenter == old(mapCenter)
    {
      loading := true;
      var alertas := AlertasDaResposta(res);
      if alertas.Failure? {
        error := Some(FalhaAoCarregar);
        pontos := [];
      } else {
        var transformados := Transformar(alertas.value);
        pontos := transformados;
        if |transformados| > 0 {
          mapCenter := LatLng(transformados[0].latitude, transformados[0].longitude);
        }
        error := None;
      }
      loading := false;
    }

    /** The second effect: nothing until mounted, then one `fetchData`. The
        five-minute interval repeats the same call. */
    method Effect(res: Resposta)
      modifies this
      ensures !old(mounted) ==> !mounted && pontos == old(pontos) && loading == old(loading) && error == old(error) && mapCenter == old(mapCenter)
      ensures old(mounted) ==> Tela() == TelaAposBusca(res, old(mapCenter))
    {
      if !mounted {
        return;
      }
      FetchData(res);
    }

    /** The render decision. */
    function Tela(): Tela
      reads this
    {
      if !mounted then Nada
      else if loading then Carregando
      else if error.Some? && error.value != "" then Erro(error.value)
      else Mapa(mapCenter, pontos)
    }
  }

  /** The screen after a fetch, given the centre the map had before it. */
  function TelaAposBusca(res: Resposta, centroAnterior: LatLng): (t: Tela)
    ensures t.Erro? <==> AlertasDaResposta(res).Failure?
    ensures t.Erro? ==> t.mensagem == FalhaAoCarregar
    ensures t.Mapa? ==> t.marcadores == Pontos(AlertasDaResposta(res).value)
    ensures AlertasDaResposta(res).Success? ==> t.Mapa?
    ensures t.Mapa? && t.marcadores == [] ==> t.centro == centroAnterior
    ensures t.Mapa? && t.marcadores != [] ==> t.centro == LatLng(t.marcadores[0].latitude, t.marcadores[0].longitude)
  {
    match AlertasDaResposta(res)
    case Failure(_) => Erro(FalhaAoCarregar)
    case Success(alertas) =>
      var pontos := Pontos(alertas);
      Mapa(if pontos == [] then centroAnterior else LatLng(pontos[0].latitude, pontos[0].longitude), pontos)
  }

  /** After a successful fetch the map is centred either where it was or on
      a coordinate some alert resolved to: a centroid, or a state's table entry. */
  lemma CentroAposBusca(res: Resposta, centroAnterior: LatLng)
    requires TelaAposBusca(res, centroAnterior).Mapa?
    ensures var t := TelaAposBusca(res, centroAnterior);
            var alertas := AlertasDaResposta(res).value;
            || t.centro == centroAnterior
            || (exists i :: 0 <= i < |alertas| && CalcularCentroide(alertas[i].poligono) == Some(t.centro))
            || (exists uf :: uf in UfCoordenadas && uf != "BR" && UfCoordenadas[uf] == t.centro)
  {
    var alertas := AlertasDaResposta(res).value;
    var pontos := Pontos(alertas);
    if pontos != [] {
      PontosWellFormed(alertas, pontos[0]);
    }
  }

  /** A bare array of alerts, which `transformarAlertas` plots, shows no
      markers here: only the `hoje`/`futuro` wrapper is read. */
  lemma PlainArrayShowsNothing(a: AlertaINMET, rest: seq<Entry>)
    ensures AlertasDoFeed(List([Alert(a)] + rest)) == Success([])
    ensures AlertasDe(List([Alert(a)] + rest))[0] == a
  {
  }

  /** A wrapper with only `hoje` contributes exactly today's alerts. */
  lemma HojeOnly(hoje: seq<AlertaINMET>)
    ensures AlertasDoFeed(List([Bucket(Some(hoje), None)])) == Success(hoje)
  {
    assert hoje + [] == hoje;
  }
}
