/** Shared value types: optional values, results, the three states of a JSON
    request field, and the JSON values that appear in error bodies. */
module Comun {

  datatype Option<+T> = None | Some(value: T)

  datatype Result<+R, +E> = Ok(value: R) | Err(error: E)

  /** A field of a JSON request body: missing, explicitly `null`, or a value. */
  datatype Campo<+T> = Ausente | Nulo | Valor(v: T)

  /** A value of a JSON error body: a bare string (`{"detalle": "..."}`, as the
      views raise it) or a list of messages (`{"campo": ["..."]}`, as the
      serializers report it). */
  datatype Json = Texto(s: string) | Lista(items: seq<string>)

  /** An error response: HTTP status and JSON body. */
  datatype Fallo = Fallo(codigo: int, cuerpo: map<string, Json>)

  /** React renders an array of strings as the strings one after another. */
  function Unir(items: seq<string>): string {
    if items == [] then "" else items[0] + Unir(items[1..])
  }

  /** JavaScript truthiness of a possibly missing string: `undefined`, `null`
      and `""` are falsy. */
  predicate Verdadero(o: Option<string>) {
    o.Some? && o.value != ""
  }
}
