/** The optional-value datatype used for the platform calls that may fail
    (URL parsing, percent-decoding) and for absent query entries and headers. */
module Options {

  datatype Option<+T> = None | Some(value: T)
}
