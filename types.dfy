/** Values shared by the retrieval layer: the crate's error and result types,
    the documents the service returns, and the per-session parameters the
    retrieval methods read from `FirestoreDb`. */
module Types {

  datatype Option<+T> = None | Some(value: T)

  /** The error kinds the retrieval layer tells apart. `DatabaseError` is what a
      failed RPC becomes; only it carries the `retry_possible` flag. */
  datatype FirestoreError =
    | DatabaseError(retryPossible: bool, details: string)
    | DataNotFoundError(details: string)
    | DeserializeError(details: string)
    | InvalidParametersError(details: string)
    | OtherError(details: string)

  /** `FirestoreResult<T>`. */
  datatype Result<+T> = Ok(value: T) | Err(error: FirestoreError)

  /** A document as the service returns it: its full resource name and its
      fields (field values are kept opaque, as their text). */
  datatype Document = Document(name: string, fields: map<string, string>)

  /** An optional list of field paths; `None` asks for every field. */
  type Mask = Option<seq<string>>

  /** The wire form of the session's consistency selector. */
  datatype Consistency = Transaction(id: string) | ReadTime(seconds: int)

  /** A correlated batch element: the short document id and the document, or
      `None` when the service reported the document missing. */
  type Pair<V> = (string, Option<V>)

  /** What the retrieval code reads from the database object:
      - `databasePath`: `get_database_path()`;
      - `documentsPath`: `get_documents_path()`, the default parent scope;
      - `maxRetries`: `get_options().max_retries`;
      - `consistency`: the outcome of converting the session's consistency
        selector to its wire form (`Ok(None)` when there is none, `Err` when
        the conversion fails). */
  datatype Session = Session(
    databasePath: string,
    documentsPath: string,
    maxRetries: nat,
    consistency: Result<Option<Consistency>>)
}
