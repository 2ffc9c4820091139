/** src/app/components/Dashboard/DashboardContent/DashboardContent.tsx:
    the alert list's two filters and the statistics panel. Both are
    expressions over the points, the two selected facets and the current
    time; `new Date(text)` is the parameter `parse`, with `None` for a text
    that gives an invalid date. */
module Dashboard {
  import opened Wrappers
  import opened Types
  import opened Lists

  /** The risk-level facet: 'Todos' or one level. */
  datatype FiltroNivel = TodosNiveis | SoNivel(nivel: RiskLevel)

  /** The period facet. */
  datatype FiltroPeriodo = Ativos | Passados | TodosPeriodos

  /** The facets the panel opens with. */
  const FiltroNivelInicial := TodosNiveis
  const FiltroPeriodoInicial := Ativos

  /** `a <= b` on two `Date` objects: false when either is an invalid date (NaN). */
  predicate DataMenorOuIgual(a: Option<int>, b: Option<int>) {
    a.Some? && b.Some? && a.value <= b.value
  }

  /** `inicio <= agora && fim >= agora` */
  predicate EstaAtivo(p: PontoDeRisco, agora: int, parse: string -> Option<int>) {
    DataMenorOuIgual(parse(p.inicio), Some(agora)) && DataMenorOuIgual(Some(agora), parse(p.fim))
  }

  predicate NivelCorreto(p: PontoDeRisco, filtroNivel: FiltroNivel) {
    filtroNivel.TodosNiveis? || p.nivel == filtroNivel.nivel
  }

  predicate PeriodoCorreto(p: PontoDeRisco, filtroPeriodo: FiltroPeriodo, agora: int, parse: string -> Option<int>) {
    || filtroPeriodo.TodosPeriodos?
    || (filtroPeriodo.Ativos? && EstaAtivo(p, agora, parse))
    || (filtroPeriodo.Passados? && !EstaAtivo(p, agora, parse))
  }

  /** `pontosFiltrados` */
  function PontosFiltrados(pontos: seq<PontoDeRisco>, filtroNivel: FiltroNivel, filtroPeriodo: FiltroPeriodo,
                           agora: int, parse: string -> Option<int>): seq<PontoDeRisco> {
    Filter(p => NivelCorreto(p, filtroNivel) && PeriodoCorreto(p, filtroPeriodo, agora, parse), pontos)
  }

  /** The statistics panel. */
  datatype Estatisticas = Estatisticas(total: nat, ativos: nat, alto: nat, medio: nat, baixo: nat)

  /** `estatisticas`: counted over all points; the facets play no part. */
  function CalcularEstatisticas(pontos: seq<PontoDeRisco>, agora: int, parse: string -> Option<int>): Estatisticas {
    Estatisticas(
      |pontos|,
      |Filter(p => EstaAtivo(p, agora, parse), pontos)|,
      |Filter((p: PontoDeRisco) => p.nivel == Alto, pontos)|,
      |Filter((p: PontoDeRisco) => p.nivel == Medio, pontos)|,
      |Filter((p: PontoDeRisco) => p.nivel == Baixo, pontos)|)
  }

  // Properties of the filters

  /** A point is active exactly when both dates are valid and now lies
      between them, bounds included. */
  lemma AtivoSe(p: PontoDeRisco, agora: int, parse: string -> Option<int>)
    ensures EstaAtivo(p, agora, parse) <==>
      parse(p.inicio).Some? && parse(p.fim).Some? && parse(p.inicio).value <= agora <= parse(p.fim).value
  {
  }

  /** A point passes the filters exactly when it is one of the points and
      its level and period match. */
  lemma FiltradosMembership(pontos: seq<PontoDeRisco>, fn: FiltroNivel, fp: FiltroPeriodo,
                            agora: int, parse: string -> Option<int>, p: PontoDeRisco)
    ensures p in PontosFiltrados(pontos, fn, fp, agora, parse) <==>
      p in pontos && NivelCorreto(p, fn) && PeriodoCorreto(p, fp, agora, parse)
  {
    FilterMembership(p => NivelCorreto(p, fn) && PeriodoCorreto(p, fp, agora, parse), pontos, p);
  }

  /** The filtered list keeps points in their order and adds none. */
  lemma FiltradosSubsequencia(pontos: seq<PontoDeRisco>, fn: FiltroNivel, fp: FiltroPeriodo,
                              agora: int, parse: string -> Option<int>)
    ensures IsSubsequence(PontosFiltrados(pontos, fn, fp, agora, parse), pontos)
    ensures |PontosFiltrados(pontos, fn, fp, agora, parse)| <= |pontos|
  {
    FilterIsSubsequence(p => NivelCorreto(p, fn) && PeriodoCorreto(p, fp, agora, parse), pontos);
    FilterLength(p => NivelCorreto(p, fn) && PeriodoCorreto(p, fp, agora, parse), pontos);
  }

  /** With both facets on 'Todos' every point is listed. */
  lemma TodosTodos(pontos: seq<PontoDeRisco>, agora: int, parse: string -> Option<int>)
    ensures PontosFiltrados(pontos, TodosNiveis, TodosPeriodos, agora, parse) == pontos
  {
    FilterAll(p => NivelCorreto(p, TodosNiveis) && PeriodoCorreto(p, TodosPeriodos, agora, parse), pontos);
  }

  /** With one level chosen, every listed point has exactly that level. */
  lemma NivelExato(pontos: seq<PontoDeRisco>, n: RiskLevel, fp: FiltroPeriodo,
                   agora: int, parse: string -> Option<int>, p: PontoDeRisco)
    requires p in PontosFiltrados(pontos, SoNivel(n), fp, agora, parse)
    ensures p.nivel == n
  {
    FiltradosMembership(pontos, SoNivel(n), fp, agora, parse, p);
  }

  /** 'Passados' keeps every point that is not active, one that has not
      started yet included. */
  lemma FuturoEmPassados(pontos: seq<PontoDeRisco>, fn: FiltroNivel, agora: int,
                         parse: string -> Option<int>, p: PontoDeRisco)
    requires p in pontos && NivelCorreto(p, fn)
    requires parse(p.inicio).Some? && parse(p.inicio).value > agora
    ensures p in PontosFiltrados(pontos, fn, Passados, agora, parse)
    ensures p !in PontosFiltrados(pontos, fn, Ativos, agora, parse)
  {
    FiltradosMembership(pontos, fn, Passados, agora, parse, p);
    FiltradosMembership(pontos, fn, Ativos, agora, parse, p);
  }

  /** 'Ativos' and 'Passados' split the points of the chosen level: no point
      is in both, and together they are as many as under 'Todos'. */
  lemma AtivosPassadosParticao(pontos: seq<PontoDeRisco>, fn: FiltroNivel, agora: int, parse: string -> Option<int>)
    ensures |PontosFiltrados(pontos, fn, Ativos, agora, parse)| + |PontosFiltrados(pontos, fn, Passados, agora, parse)|
            == |PontosFiltrados(pontos, fn, TodosPeriodos, agora, parse)|
    ensures forall p :: p in PontosFiltrados(pontos, fn, Ativos, agora, parse) ==>
            p !in PontosFiltrados(pontos, fn, Passados, agora, parse)
  {
    var nivel := (p: PontoDeRisco) => NivelCorreto(p, fn);
    var ativo := (p: PontoDeRisco) => EstaAtivo(p, agora, parse);
    var inativo := (p: PontoDeRisco) => !EstaAtivo(p, agora, parse);
    var doNivel := Filter(nivel, pontos);
    FilterFilter(nivel, ativo, p => NivelCorreto(p, fn) && PeriodoCorreto(p, Ativos, agora, parse), pontos);
    FilterFilter(nivel, inativo, p => NivelCorreto(p, fn) && PeriodoCorreto(p, Passados, agora, parse), pontos);
    FilterCongruent(nivel, p => NivelCorreto(p, fn) && PeriodoCorreto(p, TodosPeriodos, agora, parse), pontos);
    FilterSplit(ativo, inativo, doNivel);
    forall p | p in PontosFiltrados(pontos, fn, Ativos, agora, parse)
      ensures p !in PontosFiltrados(pontos, fn, Passados, agora, parse)
    {
      FiltradosMembership(pontos, fn, Ativos, agora, parse, p);
      FiltradosMembership(pontos, fn, Passados, agora, parse, p);
    }
  }

  // Properties of the statistics

  /** Every point has one of the three levels, so the level counts add up to the total. */
  lemma {:induction false} NiveisSomamTotal(pontos: seq<PontoDeRisco>)
    ensures |Filter((p: PontoDeRisco) => p.nivel == Alto, pontos)|
          + |Filter((p: PontoDeRisco) => p.nivel == Medio, pontos)|
          + |Filter((p: PontoDeRisco) => p.nivel == Baixo, pontos)| == |pontos|
  {
    if pontos != [] {
      NiveisSomamTotal(pontos[..|pontos| - 1]);
    }
  }

  /** The statistics: level counts sum to the total; the active count is the
      length of the list under ('Todos', 'Ativos') and at most the total;
      no points give all zeros. */
  lemma EstatisticasCoerentes(pontos: seq<PontoDeRisco>, agora: int, parse: string -> Option<int>)
    ensures var e := CalcularEstatisticas(pontos, agora, parse);
            && e.total == |pontos|
            && e.alto + e.medio + e.baixo == e.total
            && e.ativos == |PontosFiltrados(pontos, TodosNiveis, Ativos, agora, parse)|
            && e.ativos <= e.total
            && (pontos == [] ==> e == Estatisticas(0, 0, 0, 0, 0))
  {
    NiveisSomamTotal(pontos);
    FilterCongruent(p => EstaAtivo(p, agora, parse),
                    p => NivelCorreto(p, TodosNiveis) && PeriodoCorreto(p, Ativos, agora, parse), pontos);
    FilterLength(p => EstaAtivo(p, agora, parse), pontos);
  }

  /** Each level count is the length of the list under that level and 'Todos'. */
  lemma ContagemPorNivel(pontos: seq<PontoDeRisco>, n: RiskLevel, agora: int, parse: string -> Option<int>)
    ensures |PontosFiltrados(pontos, SoNivel(n), TodosPeriodos, agora, parse)| ==
            match n
            case Alto => CalcularEstatisticas(pontos, agora, parse).alto
            case Medio => CalcularEstatisticas(pontos, agora, parse).medio
            case Baixo => CalcularEstatisticas(pontos, agora, parse).baixo
  {
    FilterCongruent((p: PontoDeRisco) => p.nivel == n,
                    p => NivelCorreto(p, SoNivel(n)) && PeriodoCorreto(p, TodosPeriodos, agora, parse), pontos);
  }
}
