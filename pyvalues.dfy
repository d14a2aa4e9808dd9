/** The Python values held by the parser's and the GUI's dictionaries. */
module PyValues {

  /** A Python str or int: what `sanitize` returns, and the scalar fields
      of a timeseries dictionary. */
  datatype Value = Text(s: string) | Int(i: int)

  /** One value of a metadata or timeseries dictionary. */
  datatype Item =
    | Flag(b: bool)                                  // the `False` placeholder of a field never read
    | Val(v: Value)                                  // a sanitised header value
    | Num(x: real)                                   // a number
    | Series(values: seq<real>)                      // the readings of one timeseries
    | Coords(coords: map<string, real>)              // 'latitude' / 'longitude'
    | Filters(filters: map<Value, int>)              // filter name to sentinel value
    | Sensors(sensors: map<int, map<string, Value>>) // sensor number to its fields

  /** A Python `dict` with text keys. */
  type Dict = map<string, Item>
}
