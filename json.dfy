/**
 * The values `json.loads` produces, and the two facts about `json.loads`
 * the pipeline relies on. The parser itself is not modelled: it is passed
 * to the pipeline as a function `string -> Option<JsonValue>`, where `None`
 * stands for the `JSONDecodeError` it raises.
 */
module Json {
  import opened Wrappers

  /**
   * A decoded JSON document. Objects are Python dicts, compared by their
   * key/value pairs and not by key order, so they are maps. Numbers are
   * `real`, so that `1` and `1.0` are equal, as `int` and `float` are in Python.
   */
  datatype JsonValue =
    | JNull
    | JBool(b: bool)
    | JNumber(n: real)
    | JString(s: string)
    | JArray(items: seq<JsonValue>)
    | JObject(fields: map<string, JsonValue>)

  /** A JSON parser, as the pipeline sees `json.loads`. */
  type Parser = string -> Option<JsonValue>

  /** `json.loads` refuses the empty text: it is not a JSON document. */
  predicate RejectsEmptyText(parse: Parser) {
    parse([]).None?
  }

  /**
   * A text that starts with `{` is decoded, if at all, into an object:
   * the grammar of JSON gives `{` no other meaning at the start of a document.
   */
  ghost predicate BracedTextIsObject(parse: Parser) {
    forall text: string | 0 < |text| && text[0] == '{' && parse(text).Some? ::
      parse(text).value.JObject?
  }
}
