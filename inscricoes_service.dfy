/**
 * `InscricoesService.getInscricoes`: the query parameters it sends. Its
 * `handleError` is `ResourceServices.HandleError`.
 */
module InscricoesService {
  import opened JsValues

  /** The optional `filtros` argument. */
  datatype Filtros = Filtros(usuarioId: Option<string>, vagaId: Option<string>, cursoId: Option<string>)

  /** One `HttpParams.append(name, value)`. */
  datatype Param = Param(name: string, value: string)

  /** The filters, in the order they are appended. */
  const FilterNames: seq<string> := ["usuarioId", "vagaId", "cursoId"]

  /** The value of the filter called `name`, if it is one of the three. */
  function FilterValue(f: Filtros, name: string): Option<string> {
    if name == "usuarioId" then f.usuarioId
    else if name == "vagaId" then f.vagaId
    else if name == "cursoId" then f.cursoId
    else None
  }

  /** Position of a filter name in `FilterNames`. */
  function Rank(name: string): nat {
    if name == "usuarioId" then 0 else if name == "vagaId" then 1 else 2
  }

  /** Builds the parameter list by successive appends, one per non-empty filter. */
  method GetInscricoesParams(filtros: Option<Filtros>) returns (params: seq<Param>)
    ensures filtros.None? ==> params == []
    ensures forall n, v ::
              Param(n, v) in params
              <==> filtros.Some? && n in FilterNames && FilterValue(filtros.value, n) == Some(v) && v != ""
    ensures forall i, j :: 0 <= i < j < |params| ==> Rank(params[i].name) < Rank(params[j].name)
  {
    params := [];
    if filtros.Some? {
      var f := filtros.value;
      if Truthy(f.usuarioId) {
        params := params + [Param("usuarioId", f.usuarioId.value)];
      }
      if Truthy(f.vagaId) {
        params := params + [Param("vagaId", f.vagaId.value)];
      }
      if Truthy(f.cursoId) {
        params := params + [Param("cursoId", f.cursoId.value)];
      }
    }
  }
}
