/** The exported helpers of src/app/utils/mapUtils.ts. The private helpers
    at lines 33-68 of src/app/utils/transformarAlertas.ts are the same code,
    character for character, so both files are modelled by this one module. */
module MapUtils {
  import opened Wrappers
  import opened Text
  import opened Types
  import opened UfTable

  /** `center`: the approximate centre of Brazil, the map's initial view. */
  const Center := LatLng(-15.788, -47.929)

  /** What `extrairPrimeiroMunicipio` answers when there is no text at all. */
  const SemMunicipio := "Local não especificado"

  /** The regular expression ` - ([A-Z]{2})` matches at index `i` of `s`;
      with `trailingSpace`, the stricter ` - ([A-Z]{2}) `. */
  predicate UfMatchAt(s: string, i: nat, trailingSpace: bool) {
    && i + (if trailingSpace then 6 else 5) <= |s|
    && s[i] == ' ' && s[i + 1] == '-' && s[i + 2] == ' '
    && IsAsciiUpper(s[i + 3]) && IsAsciiUpper(s[i + 4])
    && (trailingSpace ==> s[i + 5] == ' ')
  }

  /** `i` is where the regular expression engine reports the match: the pattern
      matches at `i` and at no earlier index. */
  predicate IsLeftmostUfMatch(s: string, i: nat, trailingSpace: bool) {
    UfMatchAt(s, i, trailingSpace) && forall j :: 0 <= j < i ==> !UfMatchAt(s, j, trailingSpace)
  }

  /** The leftmost match of the pattern at or after `from`, as the regular
      expression engine finds it. */
  function FirstUfMatch(s: string, from: nat, trailingSpace: bool): (r: Option<nat>)
    decreases |s| - from
    ensures r.Some? ==> from <= r.value && UfMatchAt(s, r.value, trailingSpace)
    ensures forall j :: from <= j && (r.None? || j < r.value) ==> !UfMatchAt(s, j, trailingSpace)
  {
    if from + 5 > |s| then None
    else if UfMatchAt(s, from, trailingSpace) then Some(from)
    else FirstUfMatch(s, from + 1, trailingSpace)
  }

  /** `extrairUF`: the two capitals of the first " - XX" in the text, or 'BR'. */
  function ExtrairUF(municipios: Option<string>): (uf: string)
    ensures uf == "BR" || IsUfCode(uf)
    ensures municipios.None? || municipios == Some("") ==> uf == "BR"
    ensures municipios.Some? && (forall i :: !UfMatchAt(municipios.value, i, false)) ==> uf == "BR"
    ensures forall i :: municipios.Some? && IsLeftmostUfMatch(municipios.value, i, false) ==>
      uf == municipios.value[i + 3..i + 5]
  {
    if municipios.None? || municipios.value == "" then "BR"
    else
      var s := municipios.value;
      match FirstUfMatch(s, 0, false)
      case None => "BR"
      case Some(i) => s[i + 3..i + 5]
  }

  /** `split(',')[0].trim()` and then `split(' - ')[0].trim()`. */
  function PrimeiroSegmento(s: string): string {
    Trim(BeforeFirst(Trim(BeforeFirst(s, ",")), " - "))
  }

  /** `split(sep)[0].trim()` is a trimmed piece of the text without `sep`. */
  lemma CorteForma(s: string, sep: string)
    requires sep != []
    ensures var r := Trim(BeforeFirst(s, sep));
            NoSurroundingWhitespace(r) && !Contains(r, sep) && IsInfix(r, s)
  {
    var antes := BeforeFirst(s, sep);
    var r := Trim(antes);
    assert InfixAt(antes, s, 0);
    InfixTrans(r, antes, s);
    InfixAvoids(r, antes, sep);
  }

  /** The first segment is a trimmed piece of the text holding neither a
      comma nor a " - " separator. */
  lemma PrimeiroSegmentoForma(s: string)
    ensures var r := PrimeiroSegmento(s);
            && NoSurroundingWhitespace(r)
            && !Contains(r, ",") && !Contains(r, " - ")
            && IsInfix(r, s)
  {
    var primeiro := Trim(BeforeFirst(s, ","));
    var r := Trim(BeforeFirst(primeiro, " - "));
    CorteForma(s, ",");
    CorteForma(primeiro, " - ");
    InfixTrans(r, primeiro, s);
    InfixAvoids(r, primeiro, ",");
  }

  /** `extrairPrimeiroMunicipio`: the first municipality named in the text,
      or the sentinel when there is no text. */
  function ExtrairPrimeiroMunicipio(municipios: Option<string>): (m: string)
    ensures municipios.None? || municipios == Some("") ==> m == SemMunicipio
    ensures municipios.Some? && municipios.value != "" ==>
      && IsInfix(m, municipios.value)
      && NoSurroundingWhitespace(m)
      && !Contains(m, ",") && !Contains(m, " - ")
  {
    if municipios.None? || municipios.value == "" then SemMunicipio
    else
      PrimeiroSegmentoForma(municipios.value);
      PrimeiroSegmento(municipios.value)
  }

  /** The description a point gets when the alert brings none. */
  function DescricaoSintetizada(municipio: string): (d: string)
    ensures |d| == |municipio| + 21
    ensures d[..12] == "Alerta para " && d[12..|d| - 9] == municipio && d[|d| - 9..] == " e região"
  {
    "Alerta para " + municipio + " e região"
  }

  /** Taking the first segment a second time changes nothing. */
  lemma PrimeiroSegmentoIdempotent(s: string)
    ensures PrimeiroSegmento(PrimeiroSegmento(s)) == PrimeiroSegmento(s)
  {
    var r := PrimeiroSegmento(s);
    PrimeiroSegmentoForma(s);
    assert BeforeFirst(r, ",") == r;
    assert Trim(r) == r;
    assert BeforeFirst(r, " - ") == r;
  }

  /** `calcularCentroide` (first-vertex strategy): the first position of ring
      0 (of polygon 0 for a MultiPolygon), axes swapped to (lat, lng); null
      for an absent or unparsable text, another geometry type, or an empty
      coordinate list (where the source's indexing throws and is caught). */
  function CalcularCentroide(poligono: Geometry): (c: Option<LatLng>)
    ensures c.Some? ==> poligono.Polygon? || poligono.MultiPolygon?
    ensures poligono.Polygon? ==>
      c == (if poligono.rings != [] && poligono.rings[0] != [] then Some(Swap(poligono.rings[0][0])) else None)
    ensures poligono.MultiPolygon? ==>
      c == (if poligono.polygons != [] && poligono.polygons[0] != [] && poligono.polygons[0][0] != []
            then Some(Swap(poligono.polygons[0][0][0])) else None)
  {
    match poligono
    case Polygon(rings) =>
      if |rings| > 0 && rings[0] != [] then Some(Swap(rings[0][0])) else None
    case MultiPolygon(polygons) =>
      if |polygons| > 0 && polygons[0] != [] && polygons[0][0] != [] then Some(Swap(polygons[0][0][0])) else None
    case _ => None
  }

  /** `getNivelRisco`: 'perigo' anywhere (ignoring case) is Alto and wins
      over 'atenção', which is Médio; everything else, the empty text
      included, is Baixo. */
  function GetNivelRisco(severidade: string): (nivel: RiskLevel)
    ensures nivel == Alto <==> Contains(ToLower(severidade), "perigo")
    ensures nivel == Medio <==> !Contains(ToLower(severidade), "perigo") && Contains(ToLower(severidade), "atenção")
    ensures severidade == "" ==> nivel == Baixo
  {
    if severidade == "" then Baixo
    else if Contains(ToLower(severidade), "perigo") then Alto
    else if Contains(ToLower(severidade), "atenção") then Medio
    else Baixo
  }

  /** The classifier on the feed's own vocabulary. */
  lemma PerigoIsAlto()
    ensures GetNivelRisco("Perigo Potencial") == Alto
    ensures GetNivelRisco("Grande Perigo") == Alto
  {
    assert OccursAt(ToLower("Perigo Potencial"), "perigo", 0);
    OccursAtWitness(ToLower("Perigo Potencial"), "perigo", 0);
    assert OccursAt(ToLower("Grande Perigo"), "perigo", 7);
    OccursAtWitness(ToLower("Grande Perigo"), "perigo", 7);
  }

  lemma AtencaoIsMedio()
    ensures GetNivelRisco("Atenção") == Medio
  {
    var t := ToLower("Atenção");
    assert t == "atenção";
    NoOccurrenceWithoutFirstChar(t, "perigo");
    OccursAtWitness(t, "atenção", 0);
  }

  lemma ObservacaoIsBaixo()
    ensures GetNivelRisco("observação") == Baixo
  {
    ObservacaoSemPalavras();
  }

  /** 'observação', lower-cased, names neither danger nor attention. */
  lemma ObservacaoSemPalavras()
    ensures !Contains(ToLower("observação"), "perigo") && !Contains(ToLower("observação"), "atenção")
  {
    ObservacaoSemPerigo();
    ObservacaoSemAtencao();
  }

  /** None of the first five letters of 'observação' starts "perigo". */
  lemma ObservacaoSemPerigo()
    ensures !Contains(ToLower("observação"), "perigo")
  {
    var s := "observação";
    var t := ToLower(s);
    assert |t| == 10;
    assert t[0] == LowerChar(s[0]) == 'o';
    assert t[1] == LowerChar(s[1]) == 'b';
    assert t[2] == LowerChar(s[2]) == 's';
    assert t[3] == LowerChar(s[3]) == 'e';
    assert t[4] == LowerChar(s[4]) == 'r';
    NoOccurrenceWithoutFirstChar(t, "perigo");
  }

  /** None of the first four letters of 'observação' starts "atenção". */
  lemma ObservacaoSemAtencao()
    ensures !Contains(ToLower("observação"), "atenção")
  {
    var s := "observação";
    var t := ToLower(s);
    assert |t| == 10;
    assert t[0] == LowerChar(s[0]) == 'o';
    assert t[1] == LowerChar(s[1]) == 'b';
    assert t[2] == LowerChar(s[2]) == 's';
    assert t[3] == LowerChar(s[3]) == 'e';
    NoOccurrenceWithoutFirstChar(t, "atenção");
  }

  /** The classifier does not recognise its own output labels: 'Alto' and
      'Médio' both come out as Baixo. */
  lemma OwnLabelsAreBaixo(n: RiskLevel)
    ensures GetNivelRisco(n.Label()) == Baixo
  {
  }

  /** The state code is read from the " - XX" of the text. */
  lemma ExtrairUFExamples()
    ensures ExtrairUF(Some("Campinas - SP")) == "SP"
  {
    assert IsLeftmostUfMatch("Campinas - SP", 8, false);
  }

  /** Of a list of municipalities, the first code counts. */
  lemma ExtrairUFPrimeiroDaLista()
    ensures ExtrairUF(Some("Campinas - SP, Valinhos - RJ")) == "SP"
  {
    var m := "Campinas - SP, Valinhos - RJ";
    forall j | 0 <= j < 8 ensures !UfMatchAt(m, j, false) {
      assert m[j] != ' ';
    }
    assert UfMatchAt(m, 8, false);
    assert m[11..13] == "SP";
  }

  /** A text without " - XX" has no state: 'BR'. */
  lemma ExtrairUFSemCodigo()
    ensures ExtrairUF(Some("Campinas")) == "BR"
  {
    assert forall i :: !UfMatchAt("Campinas", i, false);
  }
}
