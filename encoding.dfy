/** The standard-library conversions the handlers call but whose internals are
    outside this model (`strconv`, the `%f`/`%d` verbs of `fmt`, and the
    escapers and encoder of `net/url`). They are carried as uninterpreted
    functions: only which one is applied to which value, and in what order the
    parses are attempted, is modelled. */
module Encoding {

  datatype Codec = Codec(
    /** `strconv.ParseFloat(s, 64)` succeeds. */
    parsesFloat: string -> bool,
    /** `strconv.Atoi(s)` succeeds. */
    parsesInt: string -> bool,
    /** The `%f` rendering of the float parsed from `s`. */
    formatFloat: string -> string,
    /** The `%d` rendering of the integer parsed from `s`. */
    formatInt: string -> string,
    /** `url.QueryEscape`. */
    queryEscape: string -> string,
    /** `url.PathEscape`. */
    pathEscape: string -> string,
    /** `url.Values.Encode` of the pairs, given in the order they were added. */
    encodeQuery: seq<(string, string)> -> string
  )
}
