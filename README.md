# Document retrieval layer of firestore-rs, in Dafny

This project models the by-id retrieval code of the `firestore-rs` client
(`src/db/get.rs`) and proves what it promises:

- **Single-document fetch with bounded retry** (`get_doc_by_path`). Each attempt
  converts the session's consistency selector, sends one `GetDocument`
  request and looks at the outcome. A `DatabaseError` marked `retry_possible`
  is retried while the attempt counter is below `max_retries`. A retry goes
  out with the counter plus one and with no field mask. Any other outcome is
  returned as it is. The recursion is modelled as a `while` loop
  (`SingleGet.GetDocByPath`). The loop is proved equal to the recursive
  definition `SingleGet.Fetch`, and the retry properties are proved about
  `Fetch`.
- **The operations on top of it**: `get_doc_at`, `get_obj_at`,
  `get_obj_at_return_fields`, `get_obj_at_if_exists` (a missing document
  becomes `Ok(None)`), and their default-scope forms. These are methods
  because they issue the requests.
- **Batch correlation** (`batch_stream_get_docs_at_with_errors`). Every id is
  resolved to a document path, and the first failure ends the call. One
  `BatchGetDocuments` request is built. Each item of the response stream is
  turned into `Ok((short id, Some(doc)))`, `Ok((short id, None))`, an `Err`
  element, or nothing. The short id is the last `/`-separated piece of the
  name.
- **The projections**: the error-suppressing view, the typed suppressing
  view (decode failures are dropped), the typed error-preserving view (a
  decode failure becomes that element's error), and their default-scope
  forms.

The RPCs, the path builder and the deserialiser are parameters. `rpc(k)` is
the outcome the service gives to the single-document attempt made with
counter `k`. The batch RPC is a function from the request to either a
whole-call error or a finite stream of items. `resolve` stands for
`safe_document_path`, and `decode` for `deserialize_doc_to`. The database
path, the default documents path, `max_retries` and the result of
converting the consistency selector are fields of `Types.Session`.

Files: `types.dfy` (error, result and document types), `seqs.dfy` (the
`filter_map`, count and `map` combinators with their lemmas),
`segments.dfy` (`split('/').last()`), `single_get.dfy`, `batch_get.dfy`,
`batch_views.dfy`.

## Model

| member | source | states |
|---|---|---|
| `SingleGet.GetDocByPath` | src/db/get.rs:596-656 | The loop returns the same result and issues the same requests, in the same order, as the recursive definition. It makes at most `max_retries - retries + 1` attempts, and every attempt after the first has no mask. |
| `SingleGet.FetchAttempts` | src/db/get.rs:639-652 | The number of attempts is at most one more than the retries left. No request is sent exactly when the consistency selector fails to convert, and that conversion error is then the result. |
| `SingleGet.FetchRequests` | src/db/get.rs:605-649 | Every request names the same document and carries the session's consistency selector. The first request carries the caller's mask and every retry carries none. |
| `SingleGet.FetchOutcome` | src/db/get.rs:620-652 | Attempts use counters `retries`, `retries+1`, and so on. Every attempt but the last ended in a retried error, the last attempt is not retried, and its outcome is returned unchanged. |
| `SingleGet.FetchStopsAtTerminalOutcome` | src/db/get.rs:627-651 | A success, a non-`DatabaseError` error, or a `DatabaseError` without `retry_possible` ends the call after exactly one request, with that outcome. |
| `SingleGet.FetchExhausted` | src/db/get.rs:639-652 | If every attempt fails with a retryable `DatabaseError`, exactly `max_retries - retries + 1` attempts are made and the last error is returned. |
| `SingleGet.DocAtRequests` | src/db/get.rs:183-196 | A fetch by id makes at most `max_retries + 1` attempts. A path that fails to resolve returns the resolver's error with no request sent. Every request names the resolved path, with the caller's mask first and no mask after. |
| `SingleGet.GetDocAt` | src/db/get.rs:183-196 | Resolves the path, then fetches it starting from counter 0. |
| `SingleGet.GetDoc` | src/db/get.rs:198-214 | Same as `get_doc_at` with `get_documents_path()` as the parent. |
| `SingleGet.GetObjAtReturnFields` | src/db/get.rs:266-283 | A fetch error is passed on unchanged. Otherwise the result is the decoded document. The requests are those of `get_doc_at` with the caller's mask. |
| `SingleGet.GetObjAt` | src/db/get.rs:248-264 | Like `get_obj_at_return_fields`, except that no request, first or retry, ever carries a mask. |
| `SingleGet.GetObj` | src/db/get.rs:216-227 | Same as `get_obj_at` under the default documents path. |
| `SingleGet.GetObjReturnFields` | src/db/get.rs:229-246 | Same as `get_obj_at_return_fields` under the default documents path. |
| `SingleGet.FoldNotFound` | src/db/get.rs:323-329 | Success becomes `Ok(Some(obj))`. The result is `Ok(None)` exactly for `DataNotFoundError`. Every other error is returned unchanged, in both directions. |
| `SingleGet.IfExistsOutcomes` | src/db/get.rs:304-330 | A not-found fetch gives `Ok(None)`. A decoded document gives `Ok(Some(obj))`. A fetch error of any other kind, or a `DeserializeError` from decoding, is returned unchanged and not as `Ok(None)`. |
| `SingleGet.GetObjAtIfExists` | src/db/get.rs:304-330 | The result is the existence folding of `get_obj_at_return_fields`, and the requests are those of that call. |
| `SingleGet.GetObjIfExists` | src/db/get.rs:285-302 | Same as `get_obj_at_if_exists` under the default documents path. |
| `PathSegments.SplitOn` | src/db/get.rs:379-384 | `split('/')` yields at least one piece, no piece contains the separator, and joining the pieces with it gives back the name. So the `unwrap_or_else` fallback can never be reached. |
| `PathSegments.ShortIdIsLastSegment` | src/db/get.rs:379-392 | The short id is the suffix of the name after its last `/`. It contains no `/` and is preceded by a `/` unless it is the whole name. A name without `/` is its own id, and a trailing `/` gives the empty id. |
| `PathSegments.ShortIdOfChild` | src/db/get.rs:379-384 | The short id of `parent/id` is `id` whenever `id` has no `/`. |
| `BatchGet.ResolveAll` | src/db/get.rs:343-346 | The result is `Ok` exactly when every id resolves. It then holds the paths in id order, one per id. Otherwise it is the error of the first id that fails. |
| `BatchGet.BuildRequest` | src/db/get.rs:355-369 | The request lists the resolved paths in input order, with the same length as the input. It carries the session's database and consistency selector and the caller's mask. A resolution failure, then a selector failure, returns `Err` before any RPC. |
| `BatchGet.BatchGetDocsAtWithErrors` | src/db/get.rs:332-404 | A failure to build the request is returned without calling the RPC. A whole-call RPC failure is returned once, with no retry. Otherwise the result is the correlated stream, no longer than the response stream. |
| `BatchGet.CorrelateCons` | src/db/get.rs:375-398 | `Found(doc)` gives `Ok((id, Some(doc)))`, and `Missing(name)` gives `Ok((id, None))`. A transport error gives an `Err` element, and a response without a result gives nothing. The rest of the stream follows in order. |
| `BatchGet.CorrelateAppend` | src/db/get.rs:373-399 | Output order follows arrival order: correlation distributes over concatenation of the stream. |
| `BatchGet.CorrelateLength` | src/db/get.rs:375-398 | There is one output element per item that is an error or carries a result, so the output is never longer than the stream. |
| `BatchGet.CorrelateKeepsKindsApart` | src/db/get.rs:375-398 | The output has exactly as many `Err` elements as the stream has transport errors. It has as many `(id, None)` elements as there are `Missing` results, and as many `(id, Some)` elements as there are `Found` results. |
| `BatchGet.CorrelateIds` | src/db/get.rs:377-394 | The ids of the non-error elements are the short ids of the names the responses carry, in arrival order. |
| `BatchGet.IdentityPreserved` | src/db/get.rs:343-398 | Suppose the service answers every requested path once, in any order, and each id is the short id of its own path. Then the ids of the correlated output are the input ids up to order. |
| `BatchGet.BatchIdentityPreserved` | src/db/get.rs:332-404 | For a whole batch call whose request builds, whose RPC succeeds and answers every resolved path once in any order, and whose ids are each the short id of their own path, the call succeeds and its `Ok` elements carry the requested ids up to order. |
| `BatchGet.ScenarioThreeIds` | src/db/get.rs:375-398 | Ids a, b, c are answered by `Found(b)`, `Missing(.../a)` and a transport error. The output is `("b", Some(b))`, `("a", None)`, `Err`, in arrival order. |
| `BatchViews.DecodeAll` | src/db/get.rs:554-561 | The typed error-preserving view keeps length and position. `Err` passes through unchanged and `(id, None)` stays `(id, None)`. A found document becomes `(id, Some(obj))`, or that element's own decode error. |
| `BatchViews.BatchGetDocsAt` | src/db/get.rs:406-438 | A call-level error is returned unchanged. Otherwise there is one pair per `Ok` element of the error-preserving stream. |
| `BatchViews.BatchGetDocs` | src/db/get.rs:440-457 | Same as `batch_stream_get_docs_at` under the default documents path. |
| `BatchViews.BatchGetDocsWithErrors` | src/db/get.rs:459-476 | Same as `batch_stream_get_docs_at_with_errors` under the default documents path. |
| `BatchViews.BatchGetObjectsAt` | src/db/get.rs:498-531 | A call-level error is returned unchanged. Otherwise the output is no longer than the document view it decodes. |
| `BatchViews.BatchGetObjects` | src/db/get.rs:478-496 | Same as `batch_stream_get_objects_at` under the default documents path. |
| `BatchViews.BatchGetObjectsAtWithErrors` | src/db/get.rs:533-562 | A call-level error is returned unchanged. Otherwise there is one typed element per element of the error-preserving stream. |
| `BatchViews.BatchGetObjectsWithErrors` | src/db/get.rs:564-592 | This form repeats the decoding code under the default documents path instead of delegating. Its result equals the scoped form's. |
| `BatchViews.SuppressErrorsMember` | src/db/get.rs:426-437 | The suppressing view holds exactly the payloads of the `Ok` elements, and is never longer than its input. |
| `BatchViews.SuppressErrorsLength` | src/db/get.rs:426-437 | The suppressing view has one element per `Ok` element. |
| `BatchViews.SuppressErrorsSkipsError` | src/db/get.rs:426-437 | An error element removes only itself. The elements after it still come out, in order. |
| `BatchViews.SuppressErrorsKeepsMissing` | src/db/get.rs:426-437 | A missing document is never turned into an error or dropped. The view has as many `(id, None)` pairs as its input has `Ok((id, None))` elements. |
| `BatchViews.DecodeOrDropKeepsMissing` | src/db/get.rs:514-530 | The typed suppressing view keeps every `(id, None)` pair. |
| `BatchViews.DecodeOrDropMember` | src/db/get.rs:514-530 | `(id, None)` comes out exactly when the input holds `(id, None)`. `(id, Some(obj))` comes out exactly when the input holds a document under `id` that decodes to `obj`. |
| `BatchViews.DecodeOrDropSkipsFailure` | src/db/get.rs:514-530 | A document that fails to decode removes only itself from the stream. |
| `BatchViews.SuppressedDecodeAgrees` | src/db/get.rs:510-561 | Dropping the errors of the typed error-preserving view gives the typed suppressing view of the suppressed stream. |
| `BatchViews.ObjectsAtIsSuppressedWithErrors` | src/db/get.rs:498-562 | `batch_stream_get_objects_at` is `batch_stream_get_objects_at_with_errors` with its error elements dropped. Call-level errors are the same in both. |
| `BatchViews.MissingIsNotAnError` | src/db/get.rs:387-528 | For a delivered stream, both the document view and the typed view hold exactly as many `(id, None)` pairs as the stream has `Missing` results. |
| `BatchViews.ScenarioSuppressed` | src/db/get.rs:426-437 | For the three-id example, the suppressing view yields `("b", Some(b))` and `("a", None)`, and the transport error is dropped. |

## Left out

- The gRPC client calls, `tonic::Request` and the generated request and response types. The RPCs are parameters. The requests are modelled by the fields the code sets.
- The conversion of a `tonic::Status` into a `FirestoreError` (`.into()`, `map_err`). The RPC parameters yield a `FirestoreError` directly, and whether it is retryable is its `retryPossible` flag.
- `safe_document_path`, `get_documents_path`, `get_database_path` and `get_options().max_retries`. They appear as the `resolve` parameter and as `Session` fields.
- The consistency-selector `try_into` conversion. Its result is the `Session.consistency` field. An `Err` there ends the call before any RPC.
- `deserialize_doc_to` (serde). It is the `decode` parameter, a total function that returns a `Result`.
- Document field values and the create and update timestamps. Fields are an opaque map.
- The `transaction` and `read_time` fields of a batch response. Only its `result` is modelled.
- `tracing` spans, `debug!`, `warn!` and `error!` logging, and the `Utc::now` duration measurement. They have no effect on results.
- Async execution, `BoxFuture`/`BoxStream` laziness and stream cancellation. A response stream is a finite sequence that is already complete. The model does not capture early abandonment of a stream.
- Ordering: a caller might expect batch elements in id order. The code keeps arrival order and does not reorder them by id, and `BatchGet.ScenarioThreeIds` states the arrival order.
- One might expect each requested id exactly once in the output. The code does not check this. `BatchGet.IdentityPreserved` and `BatchGet.BatchIdentityPreserved` prove it when the service answers every path once.
- `SingleGet.IfExistsOutcomes`: the outcome of a decode failure is stated only for `DeserializeError`. `deserialize_doc_to` is not part of this model, and a decoder that returned `DataNotFoundError` would be folded to `Ok(None)` like a missing document.
