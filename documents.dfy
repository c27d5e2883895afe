/**
 * JSON-LD documents as the DID and context loaders see them, and the
 * record that every document loader returns.
 */
module Documents {

  datatype Option<T> = None | Some(value: T)

  datatype Result<T, E> = Success(value: T) | Failure(error: E)

  /** A JSON value. Numbers are integers (see README, "Left out"). */
  datatype Json =
    | JNull
    | JBool(b: bool)
    | JNum(n: int)
    | JStr(s: string)
    | JArr(items: seq<Json>)
    | JObj(fields: map<string, Json>)

  /** A JSON object: a DID document, a flattened node or a framed node. */
  type Node = map<string, Json>

  /** JavaScript truthiness of a stored value; an absent key (undefined) is
      handled by the caller. */
  predicate Truthy(v: Json)
  {
    match v
    case JNull => false
    case JBool(b) => b
    case JNum(n) => n != 0
    case JStr(s) => s != ""
    case JArr(_) => true
    case JObj(_) => true
  }

  /** `{contextUrl, document, documentUrl}`, the value a document loader
      resolves to; `contextUrl` is `null` in every loader modelled here. */
  datatype RemoteDocument = RemoteDocument(contextUrl: Option<string>, document: Json, documentUrl: string)

  /** The two errors the loaders throw: `new Error('NotFoundError')`, and the
      `'Not Found'` error whose `httpStatusCode` and `status` are set. */
  datatype LoadError =
    | NotFoundError
    | HttpNotFound(httpStatusCode: int, status: int)
}
