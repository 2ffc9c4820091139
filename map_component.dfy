/** src/app/components/Map/MapComponent/MapComponent.tsx: the older map
    component, with its own copies of the helpers. It differs from
    MapContent.tsx in five ways: the state-code regular expression needs a
    space after the code; the centroid is the mean of the first ring's
    vertices; the risk level is always 'Médio' and the description always
    the synthesized one; the feed is read as an object `{ hoje }`; and an
    alert without `municipios` makes the whole fetch fail, leaving the
    previous points in place. */
module MapComponent {
  import opened Wrappers
  import opened Text
  import opened Types
  import opened UfTable
  import opened MapUtils
  import opened Lists

  // The mean of a ring

  /** The sum of a list of numbers, accumulated from the front. */
  function Soma(xs: seq<real>): real {
    if xs == [] then 0.0 else Soma(xs[..|xs| - 1]) + xs[|xs| - 1]
  }

  function Lats(ring: Ring): (r: seq<real>)
    ensures |r| == |ring| && forall i :: 0 <= i < |ring| ==> r[i] == ring[i].lat
  {
    seq(|ring|, i requires 0 <= i < |ring| => ring[i].lat)
  }

  function Lngs(ring: Ring): (r: seq<real>)
    ensures |r| == |ring| && forall i :: 0 <= i < |ring| ==> r[i] == ring[i].lng
  {
    seq(|ring|, i requires 0 <= i < |ring| => ring[i].lng)
  }

  /** A JavaScript `[lat, lng]` pair of numbers: `0 / 0` makes both NaN. */
  datatype Media = Indefinida | Media(c: LatLng)

  /** `[latTotal / coordenadas.length, lngTotal / coordenadas.length]`. */
  function MediaDe(ring: Ring): Media {
    if ring == [] then Indefinida
    else Media(LatLng(Soma(Lats(ring)) / |ring| as real, Soma(Lngs(ring)) / |ring| as real))
  }

  /** The `for (const coord of coordenadas)` accumulation and the division. */
  method MediaDoAnel(coordenadas: Ring) returns (m: Media)
    ensures m == MediaDe(coordenadas)
  {
    var latTotal := 0.0;
    var lngTotal := 0.0;
    for i := 0 to |coordenadas|
      invariant latTotal == Soma(Lats(coordenadas)[..i])
      invariant lngTotal == Soma(Lngs(coordenadas)[..i])
    {
      assert Lats(coordenadas)[..i + 1][..i] == Lats(coordenadas)[..i];
      assert Lngs(coordenadas)[..i + 1][..i] == Lngs(coordenadas)[..i];
      latTotal := latTotal + coordenadas[i].lat;
      lngTotal := lngTotal + coordenadas[i].lng;
    }
    assert Lats(coordenadas)[..|coordenadas|] == Lats(coordenadas);
    assert Lngs(coordenadas)[..|coordenadas|] == Lngs(coordenadas);
    if |coordenadas| == 0 {
      m := Indefinida;
    } else {
      m := Media(LatLng(latTotal / |coordenadas| as real, lngTotal / |coordenadas| as real));
    }
  }

  /** A sum of numbers between `lo` and `hi` lies between `n * lo` and `n * hi`. */
  lemma {:induction false} SomaLimites(xs: seq<real>, lo: real, hi: real)
    requires forall i :: 0 <= i < |xs| ==> lo <= xs[i] <= hi
    ensures |xs| as real * lo <= Soma(xs) <= |xs| as real * hi
  {
    if xs != [] {
      var init := xs[..|xs| - 1];
      forall i | 0 <= i < |init| ensures lo <= init[i] <= hi {
        assert init[i] == xs[i];
      }
      SomaLimites(init, lo, hi);
      var n, x := |init| as real, xs[|xs| - 1];
      assert Soma(xs) == Soma(init) + x;
      assert lo <= x <= hi;
      assert |xs| as real == n + 1.0;
      assert (n + 1.0) * lo == n * lo + lo && (n + 1.0) * hi == n * hi + hi;
    }
  }

  /** The mean of non-empty numbers between `lo` and `hi` is between them too. */
  lemma MediaLimites(xs: seq<real>, lo: real, hi: real)
    requires xs != []
    requires forall i :: 0 <= i < |xs| ==> lo <= xs[i] <= hi
    ensures lo <= Soma(xs) / |xs| as real <= hi
  {
    SomaLimites(xs, lo, hi);
    QuocienteLimites(Soma(xs), |xs| as real, lo, hi);
  }

  /** Dividing bounds `n * lo <= s <= n * hi` by a positive `n`. */
  lemma QuocienteLimites(s: real, n: real, lo: real, hi: real)
    requires n > 0.0 && n * lo <= s <= n * hi
    ensures lo <= s / n <= hi
  {
    assert s / n - lo == (s - n * lo) / n;
    assert hi - s / n == (n * hi - s) / n;
  }

  /** The mean of a non-empty ring lies in the box spanned by its vertices. */
  lemma MediaNosLimites(ring: Ring, latMin: real, latMax: real, lngMin: real, lngMax: real)
    requires ring != []
    requires forall i :: 0 <= i < |ring| ==> latMin <= ring[i].lat <= latMax && lngMin <= ring[i].lng <= lngMax
    ensures MediaDe(ring).Media?
    ensures latMin <= MediaDe(ring).c.lat <= latMax && lngMin <= MediaDe(ring).c.lng <= lngMax
  {
    MediaLimites(Lats(ring), latMin, latMax);
    MediaLimites(Lngs(ring), lngMin, lngMax);
  }

  /** A ring of one vertex averages to that vertex, axes swapped. */
  lemma MediaDeUmVertice(p: Position)
    ensures MediaDe([p]) == Media(Swap(p))
  {
    assert Lats([p]) == [p.lat] && Lngs([p]) == [p.lng];
    assert [p.lat][..0] == [] && [p.lng][..0] == [];
    assert Soma([p.lat]) == Soma([p.lat][..0]) + p.lat;
    assert Soma([p.lng]) == Soma([p.lng][..0]) + p.lng;
  }

  /** A closed ring repeats its first vertex at the end, and the mean counts
      it twice: the closed triangle (0,0),(4,0),(0,4),(0,0) averages to
      longitude 1, its three distinct vertices to 4/3. */
  lemma FechamentoContaDuasVezes()
    ensures var a, b, c := Position(0.0, 0.0), Position(4.0, 0.0), Position(0.0, 4.0);
            MediaDe([a, b, c, a]) == Media(LatLng(1.0, 1.0))
            && MediaDe([a, b, c]).c.lng == 4.0 / 3.0
  {
    var a, b, c := Position(0.0, 0.0), Position(4.0, 0.0), Position(0.0, 4.0);
    var r4, r3 := [a, b, c, a], [a, b, c];
    assert Lats(r4) == [0.0, 0.0, 4.0, 0.0] && Lngs(r4) == [0.0, 4.0, 0.0, 0.0];
    assert Lats(r3) == [0.0, 0.0, 4.0] && Lngs(r3) == [0.0, 4.0, 0.0];
    assert [0.0, 0.0, 4.0, 0.0][..3] == [0.0, 0.0, 4.0];
    assert [0.0, 0.0, 4.0][..2] == [0.0, 0.0];
    assert [0.0, 0.0][..1] == [0.0];
    assert [0.0, 4.0, 0.0, 0.0][..3] == [0.0, 4.0, 0.0];
    assert [0.0, 4.0, 0.0][..2] == [0.0, 4.0];
    assert [0.0, 4.0][..1] == [0.0];
    assert [0.0][..0] == [];
  }

  // The geometry

  /** `coordinates.flat(1)`: the rings of every polygon, in order. */
  function Flat(polygons: seq<seq<Ring>>): (r: seq<Ring>)
    ensures r == [] <==> forall i :: 0 <= i < |polygons| ==> polygons[i] == []
    ensures polygons != [] && polygons[0] != [] ==> r[0] == polygons[0][0]
  {
    if polygons == [] then [] else polygons[0] + Flat(polygons[1..])
  }

  /** `flat(1)[0]` is the first ring of the first polygon that has one:
      leading empty polygons are skipped. */
  lemma {:induction false} FlatSkipsEmpty(polygons: seq<seq<Ring>>, k: nat)
    requires k < |polygons| && polygons[k] != []
    requires forall i :: 0 <= i < k ==> polygons[i] == []
    ensures Flat(polygons) != [] && Flat(polygons)[0] == polygons[k][0]
  {
    if k > 0 {
      var rest := polygons[1..];
      forall i | 0 <= i < k - 1 ensures rest[i] == [] {
        assert rest[i] == polygons[i + 1];
      }
      FlatSkipsEmpty(rest, k - 1);
    }
  }

  /** `calcularCentroide` (mean strategy), as written: null when the text
      does not parse to a Polygon or MultiPolygon with coordinates, and
      when `flat(1)` is empty (iterating `undefined` throws and is caught). */
  function CentroideMedio(poligono: Geometry): (c: Option<Media>)
    ensures c.Some? ==> poligono.Polygon? || poligono.MultiPolygon?
    ensures poligono.Polygon? ==>
      c == (if poligono.rings != [] then Some(MediaDe(poligono.rings[0])) else None)
    ensures poligono.MultiPolygon? ==>
      c == (if Flat(poligono.polygons) != [] then Some(MediaDe(Flat(poligono.polygons)[0])) else None)
  {
    match poligono
    case Polygon(rings) =>
      if |rings| > 0 then Some(MediaDe(rings[0])) else None
    case MultiPolygon(polygons) =>
      var todas := Flat(polygons);
      if |polygons| > 0 && |todas| > 0 then Some(MediaDe(todas[0])) else None
    case _ => None
  }

  /** An empty first ring parses, passes `coordinates.length > 0`, and
      yields `[NaN, NaN]`: a truthy centroid that is no coordinate. */
  lemma AnelVazioIndefinido()
    ensures CentroideMedio(Polygon([[]])) == Some(Indefinida)
  {
  }

  method CalcularCentroideMedio(poligono: Geometry) returns (c: Option<Media>)
    ensures c == CentroideMedio(poligono)
  {
    c := None;
    if poligono.Polygon? && |poligono.rings| > 0 {
      var m := MediaDoAnel(poligono.rings[0]);
      c := Some(m);
    } else if poligono.MultiPolygon? && |poligono.polygons| > 0 {
      var todas := Flat(poligono.polygons);
      if |todas| > 0 {
        var m := MediaDoAnel(todas[0]);
        c := Some(m);
      }
    }
  }

  // The state code

  /** `extrairUF` with `/ - ([A-Z]{2}) /`: the code must be followed by a space. */
  function ExtrairUFComEspaco(municipios: string): (uf: string)
    ensures uf == "BR" || IsUfCode(uf)
    ensures (forall i :: !UfMatchAt(municipios, i, true)) ==> uf == "BR"
    ensures forall i :: IsLeftmostUfMatch(municipios, i, true) ==> uf == municipios[i + 3..i + 5]
  {
    match FirstUfMatch(municipios, 0, true)
    case None => "BR"
    case Some(i) => municipios[i + 3..i + 5]
  }

  /** Whenever the stricter expression finds a code, the one of mapUtils.ts
      finds one too, at the same place or earlier. */
  lemma ComEspacoImplicaSemEspaco(s: string)
    requires FirstUfMatch(s, 0, true).Some?
    ensures FirstUfMatch(s, 0, false).Some? && FirstUfMatch(s, 0, false).value <= FirstUfMatch(s, 0, true).value
  {
    var i := FirstUfMatch(s, 0, true).value;
    assert UfMatchAt(s, i, false);
  }

  /** A list ending in its code, the usual shape, has no state here but has
      one in mapUtils.ts. */
  lemma CodigoNoFim()
    ensures ExtrairUFComEspaco("Campinas - SP") == "BR"
    ensures ExtrairUF(Some("Campinas - SP")) == "SP"
  {
    ExtrairUFExamples();
    assert forall i :: !UfMatchAt("Campinas - SP", i, true);
  }

  // The per-alert rule and the loop

  /** The constant `getNivelRisco()` of this component. */
  const NivelPadrao := Medio

  /** A point as this component builds it: the fields of a `PontoDeRisco`,
      with `[latitude, longitude]` as the centroid computation left them,
      which may be `[NaN, NaN]`. */
  datatype Marcador = Marcador(
    id: int,
    posicao: Media,
    nivel: RiskLevel,
    descricao: string,
    inicio: string,
    fim: string,
    uf: string,
    municipio: string)

  function MarcadorDe(a: AlertaINMET, posicao: Media, uf: string, municipio: string): Marcador {
    Marcador(a.id, posicao, NivelPadrao, DescricaoSintetizada(municipio), a.dataInicio, a.dataFim, uf, municipio)
  }

  /** One alert whose `municipios` is defined, as written: any centroid the
      computation returns is truthy, `[NaN, NaN]` included, and is used;
      without one, the state's table entry; otherwise no point. */
  function PontoComponente(a: AlertaINMET): (p: Option<Marcador>)
    ensures a.municipios.Some? ==>
      (p.Some? <==> CentroideMedio(a.poligono).Some? || ExtrairUFComEspaco(a.municipios.value) in UfCoordenadas)
    ensures p.Some? ==>
      && a.municipios.Some?
      && p.value.nivel == Medio
      && p.value.descricao == DescricaoSintetizada(PrimeiroSegmento(a.municipios.value))
      && p.value.id == a.id && p.value.inicio == a.dataInicio && p.value.fim == a.dataFim
      && p.value.uf == ExtrairUFComEspaco(a.municipios.value)
      && p.value.municipio == PrimeiroSegmento(a.municipios.value)
    ensures p.Some? && CentroideMedio(a.poligono).Some? ==> p.value.posicao == CentroideMedio(a.poligono).value
    ensures p.Some? && CentroideMedio(a.poligono).None? ==>
      && p.value.uf in UfCoordenadas && p.value.uf != "BR"
      && p.value.posicao == Media(UfCoordenadas[p.value.uf])
  {
    if a.municipios.None? then None
    else
      var s := a.municipios.value;
      var uf := ExtrairUFComEspaco(s);
      var municipio := PrimeiroSegmento(s);
      match CentroideMedio(a.poligono)
      case Some(centroide) => Some(MarcadorDe(a, centroide, uf, municipio))
      case None =>
        if uf in UfCoordenadas then
          UfTable.TableShape();
          Some(MarcadorDe(a, Media(UfCoordenadas[uf]), uf, municipio))
        else None
  }

  /** The alert with an empty first ring that exhibits the NaN marker. */
  const AlertaAnelVazio := AlertaINMET(1, "i", "f", Some("Campinas - SP (3509502)"), Polygon([[]]), "", "")

  /** The municipality list of that alert names São Paulo, for this
      component's expression too. */
  lemma CampinasComEspaco()
    ensures ExtrairUFComEspaco("Campinas - SP (3509502)") == "SP"
  {
    var s := "Campinas - SP (3509502)";
    forall j | 0 <= j < 8 ensures !UfMatchAt(s, j, true) {
      assert s[j] != ' ';
    }
    assert UfMatchAt(s, 8, true);
    assert IsLeftmostUfMatch(s, 8, true);
    assert s[11..13] == "SP";
  }

  /** As written, an empty first ring puts the marker at `[NaN, NaN]`,
      although the alert's state has a table entry. */
  lemma AnelVazioEmNaN()
    ensures PontoComponente(AlertaAnelVazio).Some?
    ensures PontoComponente(AlertaAnelVazio).value.posicao == Indefinida
    ensures "SP" in UfCoordenadas && PontoComponente(AlertaAnelVazio).value.uf == "SP"
  {
    CampinasComEspaco();
    AnelVazioIndefinido();
    UfTable.SaoPaulo();
  }

  /** The evidently intended rule: a centroid that is no coordinate counts
      as no centroid, so the state's table entry is used instead. */
  function PontoComponenteCorrigido(a: AlertaINMET): (p: Option<Marcador>)
    ensures p.Some? ==> p.value.posicao.Media? && p.value.nivel == Medio && a.municipios.Some?
    ensures p.Some? && CentroideMedio(a.poligono).Some? && CentroideMedio(a.poligono).value.Media? ==>
      p.value.posicao == CentroideMedio(a.poligono).value
    ensures a.municipios.Some? ==>
      (p.Some? <==> (CentroideMedio(a.poligono).Some? && CentroideMedio(a.poligono).value.Media?)
                    || ExtrairUFComEspaco(a.municipios.value) in UfCoordenadas)
    ensures p.Some? && !(CentroideMedio(a.poligono).Some? && CentroideMedio(a.poligono).value.Media?) ==>
      && p.value.uf in UfCoordenadas && p.value.uf != "BR"
      && p.value.posicao == Media(UfCoordenadas[p.value.uf])
  {
    if a.municipios.None? then None
    else
      var s := a.municipios.value;
      var uf := ExtrairUFComEspaco(s);
      var municipio := PrimeiroSegmento(s);
      var centroide := CentroideMedio(a.poligono);
      if centroide.Some? && centroide.value.Media? then Some(MarcadorDe(a, centroide.value, uf, municipio))
      else if uf in UfCoordenadas then
        UfTable.TableShape();
        Some(MarcadorDe(a, Media(UfCoordenadas[uf]), uf, municipio))
      else None
  }

  /** The two rules differ only on a centroid that is no coordinate. */
  lemma CorrigidoConcorda(a: AlertaINMET)
    requires CentroideMedio(a.poligono) != Some(Indefinida)
    ensures PontoComponenteCorrigido(a) == PontoComponente(a)
  {
  }

  /** With the corrected rule, an alert whose mean is undefined gets its
      state's table entry when the state has one. */
  lemma CorrigidoUsaTabela(a: AlertaINMET)
    requires a.municipios.Some? && CentroideMedio(a.poligono) == Some(Indefinida)
    requires ExtrairUFComEspaco(a.municipios.value) in UfCoordenadas
    ensures PontoComponenteCorrigido(a).Some?
    ensures PontoComponenteCorrigido(a).value.uf == ExtrairUFComEspaco(a.municipios.value)
    ensures PontoComponenteCorrigido(a).value.posicao == Media(UfCoordenadas[ExtrairUFComEspaco(a.municipios.value)])
  {
  }

  /** With the corrected rule, the alert with an empty first ring gets its
      state's table entry. */
  lemma AnelVazioUsaTabela()
    ensures PontoComponenteCorrigido(AlertaAnelVazio).Some?
    ensures PontoComponenteCorrigido(AlertaAnelVazio).value.uf == "SP"
    ensures "SP" in UfCoordenadas
    ensures PontoComponenteCorrigido(AlertaAnelVazio).value.posicao == Media(UfCoordenadas["SP"])
  {
    CampinasComEspaco();
    AnelVazioIndefinido();
    UfTable.SaoPaulo();
    CorrigidoUsaTabela(AlertaAnelVazio);
  }

  /** `extrairUF(alerta.municipios)` throws on `undefined`, ending the loop. */
  predicate TodosComMunicipios(alertas: seq<AlertaINMET>) {
    forall i :: 0 <= i < |alertas| ==> alertas[i].municipios.Some?
  }

  /** The loop's outcome: the points, or `None` when it throws. */
  function PontosComponente(alertas: seq<AlertaINMET>): Option<seq<Marcador>> {
    if TodosComMunicipios(alertas) then Some(FilterMap(PontoComponente, alertas)) else None
  }

  /** Each alert yields at most one point. */
  lemma PontosComponenteTamanho(alertas: seq<AlertaINMET>)
    requires PontosComponente(alertas).Some?
    ensures |PontosComponente(alertas).value| <= |alertas|
  {
    FilterMapLength(PontoComponente, alertas);
  }

  /** As written, every point is 'Médio' and sits at the mean some alert's
      ring gave, `[NaN, NaN]` included, or at a state's table entry. */
  lemma PontosComponenteOrigem(alertas: seq<AlertaINMET>, p: Marcador)
    requires PontosComponente(alertas).Some? && p in PontosComponente(alertas).value
    ensures p.nivel == Medio
    ensures (exists i :: 0 <= i < |alertas| && CentroideMedio(alertas[i].poligono) == Some(p.posicao))
            || (p.uf in UfCoordenadas && p.posicao == Media(UfCoordenadas[p.uf]))
  {
    FilterMapMembership(PontoComponente, alertas, p);
    var i :| 0 <= i < |alertas| && PontoComponente(alertas[i]) == Some(p);
  }

  /** With the corrected rule, no point is at an undefined coordinate: each
      sits at a real mean of some alert's ring or at a state's table entry. */
  lemma PontosCorrigidosOrigem(alertas: seq<AlertaINMET>, p: Marcador)
    requires p in FilterMap(PontoComponenteCorrigido, alertas)
    ensures p.posicao.Media? && p.nivel == Medio
    ensures (exists i :: 0 <= i < |alertas| && CentroideMedio(alertas[i].poligono) == Some(p.posicao))
            || (p.uf in UfCoordenadas && p.posicao == Media(UfCoordenadas[p.uf]))
  {
    FilterMapMembership(PontoComponenteCorrigido, alertas, p);
    var i :| 0 <= i < |alertas| && PontoComponenteCorrigido(alertas[i]) == Some(p);
    var c := CentroideMedio(alertas[i].poligono);
    if c.Some? && c.value.Media? {
      assert CentroideMedio(alertas[i].poligono) == Some(p.posicao);
    }
  }

  /** When no alert has an empty first ring, the loop as written gives the
      corrected points. */
  lemma {:induction false} SemAnelVazioIgualCorrigido(alertas: seq<AlertaINMET>)
    requires forall i :: 0 <= i < |alertas| ==> CentroideMedio(alertas[i].poligono) != Some(Indefinida)
    ensures FilterMap(PontoComponente, alertas) == FilterMap(PontoComponenteCorrigido, alertas)
  {
    if alertas != [] {
      var init := alertas[..|alertas| - 1];
      forall i | 0 <= i < |init| ensures CentroideMedio(init[i].poligono) != Some(Indefinida) {
        assert init[i] == alertas[i];
      }
      SemAnelVazioIgualCorrigido(init);
      CorrigidoConcorda(alertas[|alertas| - 1]);
    }
  }

  /** The body of the loop for one alert whose `municipios` is defined. */
  method PontoDoAlerta(alerta: AlertaINMET) returns (p: Option<Marcador>)
    requires alerta.municipios.Some?
    ensures p == PontoComponente(alerta)
  {
    var municipios := alerta.municipios.value;
    var uf := ExtrairUFComEspaco(municipios);
    var municipio := PrimeiroSegmento(municipios);
    var centroide := CalcularCentroideMedio(alerta.poligono);
    if centroide.Some? {
      p := Some(Marcador(
        alerta.id, centroide.value, NivelPadrao,
        DescricaoSintetizada(municipio), alerta.dataInicio, alerta.dataFim, uf, municipio));
    } else if uf in UfCoordenadas {
      p := Some(Marcador(
        alerta.id, Media(UfCoordenadas[uf]), NivelPadrao,
        DescricaoSintetizada(municipio), alerta.dataInicio, alerta.dataFim, uf, municipio));
    } else {
      p := None;
    }
  }

  lemma MunicipiosPasso(alertas: seq<AlertaINMET>, i: nat)
    requires i < |alertas| && TodosComMunicipios(alertas[..i]) && alertas[i].municipios.Some?
    ensures TodosComMunicipios(alertas[..i + 1])
  {
    assert alertas[..i + 1] == alertas[..i] + [alertas[i]];
  }

  /** The `for (const alerta of alertas)` loop: build the points, or stop
      at the first alert whose `municipios` is undefined. */
  method TransformarComponente(alertas: seq<AlertaINMET>) returns (r: Option<seq<Marcador>>)
    ensures r == PontosComponente(alertas)
  {
    var transformados: seq<Marcador> := [];
    for i := 0 to |alertas|
      invariant TodosComMunicipios(alertas[..i])
      invariant transformados == FilterMap(PontoComponente, alertas[..i])
    {
      var alerta := alertas[i];
      assert alertas[..i + 1][..i] == alertas[..i];
      if alerta.municipios.None? {
        assert !TodosComMunicipios(alertas);
        return None;
      }
      MunicipiosPasso(alertas, i);
      var ponto := PontoDoAlerta(alerta);
      assert FilterMap(PontoComponente, alertas[..i + 1]) == transformados + AsSeq(ponto);
      if ponto.Some? {
        transformados := transformados + [ponto.value];
      }
    }
    assert alertas[..|alertas|] == alertas;
    r := Some(transformados);
  }

  /** The loop as written, on any alert whose mean is undefined (an empty
      first ring): it pushes one marker, at `[NaN, NaN]`, whatever the state. */
  lemma LoopComAnelVazio(a: AlertaINMET)
    requires a.municipios.Some? && CentroideMedio(a.poligono) == Some(Indefinida)
    ensures PontosComponente([a]).Some?
    ensures |PontosComponente([a]).value| == 1
    ensures PontosComponente([a]).value[0].posicao == Indefinida
  {
    assert TodosComMunicipios([a]);
    FilterMapSingleton(PontoComponente, a);
  }

  // The component

  const FalhaAoCarregar := "Falha ao carregar alertas meteorológicos"

  /** `data.hoje || []`: reading a property of `null` throws; an array (the
      shape MapContent.tsx reads) has no `hoje` and gives no alerts. Only the
      shapes `Feed` represents are covered. */
  function AlertasDoFeed(data: Feed): (r: Result<seq<AlertaINMET>, string>)
    ensures r.Failure? <==> data.Null?
    ensures data.Object? && data.entry.Bucket? ==> r == Success(data.entry.hoje.GetOr([]))
    ensures data.List? ==> r == Success([])
  {
    match data
    case Null => Failure("TypeError")
    case Object(Bucket(hoje, _)) => Success(hoje.GetOr([]))
    case _ => Success([])
  }

  /** What a fetch delivers, before the loop: the alerts, or a failure. */
  function AlertasDaResposta(res: Resposta): (r: Result<seq<AlertaINMET>, string>)
    ensures r.Success? <==> res.Resposta? && res.ok && res.corpo.Some? && !res.corpo.value.Null?
    ensures r.Success? ==> r == AlertasDoFeed(res.corpo.value)
  {
    match res
    case FalhaDeRede => Failure("fetch")
    case Resposta(ok, _, corpo) =>
      if !ok then Failure("Erro na API")
      else if corpo.None? then Failure("json")
      else AlertasDoFeed(corpo.value)
  }

  /** The outcome of the whole `try` block. */
  function Busca(res: Resposta): Option<seq<Marcador>> {
    match AlertasDaResposta(res)
    case Failure(_) => None
    case Success(alertas) => PontosComponente(alertas)
  }

  datatype Tela =
    | Esqueleto                                // the pulsing placeholder before mount
    | Carregando
    | Erro(mensagem: string)
    | Mapa(centro: LatLng, marcadores: seq<Marcador>)

  class MapComponentState {
    var mounted: bool
    var pontos: seq<Marcador>
    var loading: bool
    var error: Option<string>

    constructor()
      ensures !mounted && pontos == [] && loading && error == None
    {
      mounted := false;
      pontos := [];
      loading := true;
      error := None;
    }

    /** `fetchData`: on failure only the error is set; the points of the
        previous successful fetch stay. */
    method FetchData(res: Resposta)
      modifies this
      ensures mounted == old(mounted) && !loading
      ensures Busca(res).Some? ==> pontos == Busca(res).value && error == None
      ensures Busca(res).None? ==> pontos == old(pontos) && error == Some(FalhaAoCarregar)
    {
      loading := true;
      var alertas := AlertasDaResposta(res);
      if alertas.Failure? {
        error := Some(FalhaAoCarregar);
      } else {
        var transformados := TransformarComponente(alertas.value);
        if transformados.None? {
          error := Some(FalhaAoCarregar);
        } else {
          pontos := transformados.value;
          error := None;
        }
      }
      loading := false;
    }

    /** The mount effect: `setMounted(true)`, then the first `fetchData`;
        the five-minute interval repeats the call. */
    method Effect(res: Resposta)
      modifies this
      ensures mounted && !loading
      ensures Busca(res).None? ==> pontos == old(pontos) && Tela() == Erro(FalhaAoCarregar)
      ensures Busca(res).Some? ==> Tela() == Mapa(Center, Busca(res).value)
    {
      mounted := true;
      FetchData(res);
    }

    function Tela(): Tela
      reads this
    {
      if !mounted then Esqueleto
      else if loading then Carregando
      else if error.Some? && error.value != "" then Erro(error.value)
      else Mapa(Center, pontos)
    }
  }

  /** The feed MapContent.tsx reads, an array with a `{ hoje, futuro }`
      wrapper, shows no markers here whatever it holds. */
  lemma WrapperArrayShowsNothing(hoje: seq<AlertaINMET>, futuro: seq<AlertaINMET>)
    ensures Busca(Resposta(true, 200, Some(List([Bucket(Some(hoje), Some(futuro))])))) == Some([])
  {
  }
}
