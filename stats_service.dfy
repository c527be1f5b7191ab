/** The statistics service's query-parameter parsing: the rankings themselves
    are SQL queries and are not modelled. */
module StatsService {
  import opened Common

  const DefaultLimit := 100
  const MaxLimit := 500
  const DefaultMinPartidos := 1

  const LimitNoEntero := BadRequest("limit debe ser un entero")
  const LimitFueraDeRango := BadRequest("limit debe estar entre 1 y 500")
  const MinPartidosNoEntero := BadRequest("minPartidos debe ser un entero")
  const MinPartidosMenorQueUno := BadRequest("minPartidos debe ser mayor o igual a 1")

  /** A query parameter as `Number(value)` and `Number.isInteger` see it: not
      sent, a string denoting an integer, or anything else (NaN, a fraction,
      an infinity). */
  datatype Parametro = Ausente | Entero(n: int) | NoEntero

  /** `parseLimit`: 100 when absent, otherwise an integer from 1 to 500. */
  function ParseLimit(value: Parametro): (r: Result<int>)
    ensures value.Ausente? ==> r == Ok(DefaultLimit)
    ensures value.NoEntero? ==> r == Err(LimitNoEntero)
    ensures value.Entero? ==> (r.Ok? <==> 1 <= value.n <= MaxLimit)
    ensures value.Entero? && r.Ok? ==> r.value == value.n
    ensures value.Entero? && r.Err? ==> r.failure == LimitFueraDeRango
    // whatever reaches the repository is a valid limit
    ensures r.Ok? ==> 1 <= r.value <= MaxLimit
  {
    match value
    case Ausente => Ok(DefaultLimit)
    case NoEntero => Err(LimitNoEntero)
    case Entero(n) => if n < 1 || n > MaxLimit then Err(LimitFueraDeRango) else Ok(n)
  }

  /** `parseMinPartidos`: 1 when absent, otherwise an integer of at least 1;
      there is no upper bound. */
  function ParseMinPartidos(value: Parametro): (r: Result<int>)
    ensures value.Ausente? ==> r == Ok(DefaultMinPartidos)
    ensures value.NoEntero? ==> r == Err(MinPartidosNoEntero)
    ensures value.Entero? ==> (r.Ok? <==> 1 <= value.n)
    ensures value.Entero? && r.Ok? ==> r.value == value.n
    ensures value.Entero? && r.Err? ==> r.failure == MinPartidosMenorQueUno
    ensures r.Ok? ==> 1 <= r.value
  {
    match value
    case Ausente => Ok(DefaultMinPartidos)
    case NoEntero => Err(MinPartidosNoEntero)
    case Entero(n) => if n < 1 then Err(MinPartidosMenorQueUno) else Ok(n)
  }

  /** `obtenerRankingGanadores`' parameters: the limit is checked before
      `minPartidos`, so a bad limit is reported even when both are bad. */
  function ParametrosGanadores(limit: Parametro, minPartidos: Parametro): (r: Result<(int, int)>)
    ensures r.Ok? <==> ParseLimit(limit).Ok? && ParseMinPartidos(minPartidos).Ok?
    ensures ParseLimit(limit).Err? ==> r == Err(ParseLimit(limit).failure)
    ensures ParseLimit(limit).Ok? && ParseMinPartidos(minPartidos).Err? ==> r == Err(ParseMinPartidos(minPartidos).failure)
    ensures r.Ok? ==> r.value == (ParseLimit(limit).value, ParseMinPartidos(minPartidos).value)
  {
    match ParseLimit(limit)
    case Err(f) => Err(f)
    case Ok(l) =>
      match ParseMinPartidos(minPartidos)
      case Err(f) => Err(f)
      case Ok(m) => Ok((l, m))
  }
}
