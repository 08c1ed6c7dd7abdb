/** The outcome of reading one numeric query parameter: `Some(x)` when the
    parameter is present and parses to a number, `None` when it is missing or
    does not parse (the service's `isNaN` check). */
module Options {

  datatype Option<+T> = None | Some(value: T)
}
