/** JSON values as they appear in a Plotly specification and in the analysis service's reply. */
module JsonValues {

  /** A JSON value. Numbers are modelled as mathematical reals (no NaN, no rounding). */
  datatype Json =
    | Null
    | Bool(b: bool)
    | Num(n: real)
    | Str(s: string)
    | Arr(items: seq<Json>)
    | Obj(fields: map<string, Json>)
}
