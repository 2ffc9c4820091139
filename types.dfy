/** The records of src/app/utils/types.ts, the GeoJSON geometry embedded in
    an alert, and the shapes the alert feed's JSON can take. */
module Types {
  import opened Wrappers

  /** `RiskLevel = 'Alto' | 'Médio' | 'Baixo'` */
  datatype RiskLevel = Alto | Medio | Baixo {
    function Label(): string {
      match this
      case Alto => "Alto"
      case Medio => "Médio"
      case Baixo => "Baixo"
    }
  }

  /** A GeoJSON position: longitude first, then latitude (section 3.1.1 of RFC 7946). */
  datatype Position = Position(lng: real, lat: real)

  type Ring = seq<Position>

  /** The `poligono` field once parsed. Polygon is section 3.1.6 and
      MultiPolygon section 3.1.7 of RFC 7946. */
  datatype Geometry =
    | Absent                                  // `undefined` or the empty string
    | Unparsable                              // `JSON.parse` throws
    | Polygon(rings: seq<Ring>)
    | MultiPolygon(polygons: seq<seq<Ring>>)
    | OtherGeometry                           // valid JSON of any other `type`

  /** A map coordinate in Leaflet order: latitude first. */
  datatype LatLng = LatLng(lat: real, lng: real)

  function Swap(p: Position): LatLng {
    LatLng(p.lat, p.lng)
  }

  /** `AlertaINMET`, as received from the feed. String fields the source
      only tests for truthiness hold "" when absent; `municipios` keeps
      `undefined` apart because one variant of the pipeline throws on it. */
  datatype AlertaINMET = AlertaINMET(
    id: int,
    dataInicio: string,
    dataFim: string,
    municipios: Option<string>,
    poligono: Geometry,
    severidade: string,
    descricao: string)

  /** `PontoDeRisco`: one plottable map point. */
  datatype PontoDeRisco = PontoDeRisco(
    id: int,
    latitude: real,
    longitude: real,
    nivel: RiskLevel,
    descricao: string,
    inicio: string,
    fim: string,
    uf: string,
    municipio: string)

  /** An element of the feed's top-level array: an alert, or a
      `{ hoje?: [...], futuro?: [...] }` wrapper. */
  datatype Entry =
    | Alert(alerta: AlertaINMET)
    | Bucket(hoje: Option<seq<AlertaINMET>>, futuro: Option<seq<AlertaINMET>>)

  /** What `res.json()` returned. A `null` inside the lists, and a `hoje` or
      `futuro` that is truthy but not an array, are not represented. */
  datatype Feed =
    | List(entries: seq<Entry>)
    | Object(entry: Entry)
    | Null
    | Primitive                               // a string, number or boolean

  /** What `await fetch('/api/inmet-alertas')` and `res.json()` gave: the
      request failed, or a response whose status is or is not 2xx (`res.ok`)
      and whose body did or did not parse as JSON. */
  datatype Resposta =
    | FalhaDeRede
    | Resposta(ok: bool, status: int, corpo: Option<Feed>)

  /** A wrapper object read as if it were an alert: every field `undefined`. */
  const BlankAlerta := AlertaINMET(0, "", "", None, Absent, "", "")

  function AsAlerta(e: Entry): AlertaINMET {
    match e
    case Alert(a) => a
    case Bucket(_, _) => BlankAlerta
  }
}
