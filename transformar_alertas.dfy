/** src/app/utils/transformarAlertas.ts: `transformarAlertas` turns the raw
    feed into map points. Each alert becomes at most one point: at the
    centroid of its geometry when there is one, else at its state's entry
    of the fallback table, else nowhere (the alert is dropped). The same
    per-alert rule, with the same helpers, is the loop of MapContent.tsx. */
module TransformarAlertas {
  import opened Wrappers
  import opened Text
  import opened Types
  import opened UfTable
  import opened MapUtils
  import opened Lists

  /** The point's description: the alert's own text, else one synthesized
      from the municipality. */
  function Descricao(descricao: string, municipio: string): (d: string)
    ensures d != ""
    ensures descricao != "" ==> d == descricao
    ensures descricao == "" ==> d == DescricaoSintetizada(municipio)
  {
    if descricao != "" then descricao else DescricaoSintetizada(municipio)
  }

  /** The point one alert becomes, if any. */
  function ToPonto(a: AlertaINMET): (p: Option<PontoDeRisco>)
    ensures p.Some? <==> CalcularCentroide(a.poligono).Some? || ExtrairUF(a.municipios) in UfCoordenadas
    ensures p.Some? ==>
      && p.value.id == a.id && p.value.inicio == a.dataInicio && p.value.fim == a.dataFim
      && p.value.descricao == Descricao(a.descricao, p.value.municipio)
      && p.value.nivel == GetNivelRisco(a.severidade)
      && p.value.uf == ExtrairUF(a.municipios)
      && p.value.municipio == ExtrairPrimeiroMunicipio(a.municipios)
    ensures CalcularCentroide(a.poligono).Some? ==>
      LatLng(p.value.latitude, p.value.longitude) == CalcularCentroide(a.poligono).value
    ensures CalcularCentroide(a.poligono).None? && p.Some? ==>
      && p.value.uf in UfCoordenadas && p.value.uf != "BR"
      && LatLng(p.value.latitude, p.value.longitude) == UfCoordenadas[p.value.uf]
  {
    var uf := ExtrairUF(a.municipios);
    var municipio := ExtrairPrimeiroMunicipio(a.municipios);
    var nivel := GetNivelRisco(a.severidade);
    var descricao := Descricao(a.descricao, municipio);
    match CalcularCentroide(a.poligono)
    case Some(c) =>
      Some(PontoDeRisco(a.id, c.lat, c.lng, nivel, descricao, a.dataInicio, a.dataFim, uf, municipio))
    case None =>
      if uf in UfCoordenadas then
        UfTable.TableShape();
        var c := UfCoordenadas[uf];
        Some(PontoDeRisco(a.id, c.lat, c.lng, nivel, descricao, a.dataInicio, a.dataFim, uf, municipio))
      else None
  }

  /** The points of a list of alerts, in the order of the alerts. */
  function Pontos(alertas: seq<AlertaINMET>): seq<PontoDeRisco> {
    FilterMap(ToPonto, alertas)
  }

  /** The body of the loop for one alert. */
  method PontoDe(alerta: AlertaINMET) returns (p: Option<PontoDeRisco>)
    ensures p == ToPonto(alerta)
  {
    var uf := ExtrairUF(alerta.municipios);
    var municipio := ExtrairPrimeiroMunicipio(alerta.municipios);
    var centroide := CalcularCentroide(alerta.poligono);
    if centroide.Some? {
      p := Some(PontoDeRisco(
        alerta.id, centroide.value.lat, centroide.value.lng, GetNivelRisco(alerta.severidade),
        Descricao(alerta.descricao, municipio), alerta.dataInicio, alerta.dataFim, uf, municipio));
    } else if uf in UfCoordenadas {
      p := Some(PontoDeRisco(
        alerta.id, UfCoordenadas[uf].lat, UfCoordenadas[uf].lng, GetNivelRisco(alerta.severidade),
        Descricao(alerta.descricao, municipio), alerta.dataInicio, alerta.dataFim, uf, municipio));
    } else {
      p := None;
    }
  }

  /** The loop of `transformarAlertas` (and of MapContent's `fetchData`):
      push the point of every alert that has one. */
  method Transformar(alertas: seq<AlertaINMET>) returns (transformados: seq<PontoDeRisco>)
    ensures transformados == Pontos(alertas)
  {
    transformados := [];
    for i := 0 to |alertas|
      invariant transformados == Pontos(alertas[..i])
    {
      var alerta := alertas[i];
      assert alertas[..i + 1][..i] == alertas[..i];
      assert Pontos(alertas[..i + 1]) == Pontos(alertas[..i]) + AsSeq(ToPonto(alerta));
      var ponto := PontoDe(alerta);
      if ponto.Some? {
        transformados := transformados + [ponto.value];
      }
    }
    assert alertas[..|alertas|] == alertas;
  }

  /** Which alerts a feed holds: the `hoje` and `futuro` lists of the first
      element when it has either; the array itself otherwise; a lone object
      as a one-element list; nothing for null or a primitive. */
  function AlertasDe(data: Feed): (alertas: seq<AlertaINMET>)
    ensures data.Null? || data.Primitive? ==> alertas == []
    ensures data.Object? ==> alertas == [AsAlerta(data.entry)]
    ensures data.List? && IsWrapped(data.entries) ==>
      alertas == data.entries[0].hoje.GetOr([]) + data.entries[0].futuro.GetOr([])
    ensures data.List? && !IsWrapped(data.entries) ==>
      |alertas| == |data.entries| && forall i :: 0 <= i < |alertas| ==> alertas[i] == AsAlerta(data.entries[i])
  {
    match data
    case List(es) =>
      if IsWrapped(es) then es[0].hoje.GetOr([]) + es[0].futuro.GetOr([])
      else seq(|es|, i requires 0 <= i < |es| => AsAlerta(es[i]))
    case Object(e) => [AsAlerta(e)]
    case _ => []
  }

  /** `data[0]?.hoje || data[0]?.futuro`: an array (even an empty one) is truthy. */
  predicate IsWrapped(es: seq<Entry>) {
    |es| > 0 && es[0].Bucket? && (es[0].hoje.Some? || es[0].futuro.Some?)
  }

  /** `transformarAlertas(data)` */
  method TransformarAlertasDe(data: Feed) returns (transformados: seq<PontoDeRisco>)
    ensures transformados == Pontos(AlertasDe(data))
  {
    var alertas: seq<AlertaINMET> := [];
    if data.List? {
      var es := data.entries;
      if |es| > 0 && es[0].Bucket? && (es[0].hoje.Some? || es[0].futuro.Some?) {
        alertas := es[0].hoje.GetOr([]) + es[0].futuro.GetOr([]);
      } else {
        alertas := seq(|es|, i requires 0 <= i < |es| => AsAlerta(es[i]));
      }
    } else if data.Object? {
      alertas := [AsAlerta(data.entry)];
    }
    transformados := Transformar(alertas);
  }

  // Properties of the pipeline

  /** Each alert yields at most one point; none from no alerts. */
  lemma PontosLength(alertas: seq<AlertaINMET>)
    ensures |Pontos(alertas)| <= |alertas|
    ensures alertas == [] ==> Pontos(alertas) == []
  {
    FilterMapLength(ToPonto, alertas);
  }

  /** Points keep the order of their alerts, and each alert's point does
      not depend on the others: the pipeline distributes over concatenation. */
  lemma PontosAppend(a: seq<AlertaINMET>, b: seq<AlertaINMET>)
    ensures Pontos(a + b) == Pontos(a) + Pontos(b)
  {
    FilterMapAppend(ToPonto, a, b);
  }

  /** Every point carries a non-empty description and a coordinate that is
      either an alert's centroid or its state's table entry; a point placed
      from the table never has the 'BR' code. */
  lemma PontosWellFormed(alertas: seq<AlertaINMET>, p: PontoDeRisco)
    requires p in Pontos(alertas)
    ensures p.descricao != ""
    ensures (exists i :: 0 <= i < |alertas| && CalcularCentroide(alertas[i].poligono) == Some(LatLng(p.latitude, p.longitude)))
            || (p.uf in UfCoordenadas && p.uf != "BR" && UfCoordenadas[p.uf] == LatLng(p.latitude, p.longitude))
  {
    FilterMapMembership(ToPonto, alertas, p);
    var i :| 0 <= i < |alertas| && ToPonto(alertas[i]) == Some(p);
  }

  /** An alert with no centroid whose state code has no table entry is
      dropped. */
  lemma SemCentroideNemEstado(a: AlertaINMET)
    requires CalcularCentroide(a.poligono).None? && ExtrairUF(a.municipios) !in UfCoordenadas
    ensures Pontos([a]) == []
  {
    FilterMapSingleton(ToPonto, a);
  }

  /** 'Cidade - ZZ' names the code 'ZZ', which is no state. */
  lemma CidadeZZ()
    ensures ExtrairUF(Some("Cidade - ZZ")) == "ZZ"
  {
    var m := "Cidade - ZZ";
    forall j | 0 <= j < 6 ensures !UfMatchAt(m, j, false) {
      assert m[j] != ' ';
    }
    assert IsLeftmostUfMatch(m, 6, false);
    assert m[9..11] == "ZZ";
  }

  /** An alert with no geometry and an unknown state code is dropped. */
  lemma UnknownStateDropped()
    ensures Pontos([AlertaINMET(7, "2025-06-15T00:00", "2025-06-15T23:59", Some("Cidade - ZZ"), Absent, "", "")]) == []
  {
    CidadeZZ();
    ZZSemEntrada();
    SemCentroideNemEstado(AlertaINMET(7, "2025-06-15T00:00", "2025-06-15T23:59", Some("Cidade - ZZ"), Absent, "", ""));
  }

  /** An alert with no centroid whose state code is 'SP' becomes exactly one
      point, on the table's entry for 'SP', with its own severity's level. */
  lemma SaoPauloFallback(a: AlertaINMET)
    requires CalcularCentroide(a.poligono).None? && ExtrairUF(a.municipios) == "SP"
    ensures |Pontos([a])| == 1
    ensures Pontos([a])[0].latitude == -22.19 && Pontos([a])[0].longitude == -48.79
    ensures Pontos([a])[0].uf == "SP" && Pontos([a])[0].nivel == GetNivelRisco(a.severidade)
  {
    SaoPaulo();
    var p := ToPonto(a);
    assert p.Some? && p.value.uf == "SP";
    FilterMapSingleton(ToPonto, a);
  }
}
