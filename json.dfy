/**
 * The JSON documents the content loaders read. Parsing itself (QJsonDocument::
 * fromJson) is not modelled: it is a function the loaders are given.
 */
module Json {

  datatype JsonValue =
    | Null
    | Bool(b: bool)
    | Number(n: real)
    | Str(s: string)
    | Array(items: seq<JsonValue>)
    | Object(fields: map<string, JsonValue>)

  /** QJsonObject::toVariantMap: the key/value map a loader keeps. */
  type JsonObject = map<string, JsonValue>

  /** What fromJson reports: a parse error, a document whose top level is an
      object, or a well-formed document whose top level is something else. */
  datatype Document = ParseError | ObjectDocument(members: JsonObject) | OtherDocument
}
