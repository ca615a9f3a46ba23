/** The batch correlator, `batch_stream_get_docs_at_with_errors`: resolve every
    id to a document path, issue one `BatchGetDocuments` request, and turn the
    response stream into `(short id, document or None)` elements, keeping
    transport errors as elements of their own.

    The RPC is the parameter `rpc`: given the request, it either fails as a
    whole or yields a finite stream whose elements are responses or
    transport errors, in arrival order. */
module BatchGet {
  import opened Types
  import opened Seqs
  import opened PathSegments

  /** The `result` of one batch response. */
  datatype BatchResult = Found(document: Document) | Missing(name: string)

  /** One `BatchGetDocumentsResponse`; its `result` may be absent. */
  datatype Envelope = Envelope(result: Option<BatchResult>)

  /** The `BatchGetDocumentsRequest` that is sent. */
  datatype BatchRequest = BatchRequest(database: string, documents: seq<string>,
                                       consistency: Option<Consistency>, mask: Mask)

  type Resolver = (string, string, string) -> Result<string>
  type BatchRpc = BatchRequest -> Result<seq<Result<Envelope>>>

  /** Every id turned into a document path, collected into one result: the
      paths in id order when all resolve, the first failure otherwise. */
  function ResolveAll(resolve: Resolver, parent: string, collection: string, ids: seq<string>)
    : (r: Result<seq<string>>)
    ensures r.Ok? <==> forall i :: 0 <= i < |ids| ==> resolve(parent, collection, ids[i]).Ok?
    ensures r.Ok? ==>
      && |r.value| == |ids|
      && forall i :: 0 <= i < |ids| ==> resolve(parent, collection, ids[i]) == Ok(r.value[i])
    ensures r.Err? ==>
      exists i :: && 0 <= i < |ids|
                  && resolve(parent, collection, ids[i]) == Err(r.error)
                  && forall j :: 0 <= j < i ==> resolve(parent, collection, ids[j]).Ok?
    decreases |ids|
  {
    if |ids| == 0 then Ok([])
    else
      match resolve(parent, collection, ids[0])
      case Err(e) => Err(e)
      case Ok(path) =>
        var rest := ResolveAll(resolve, parent, collection, ids[1..]);
        assert forall i :: 1 <= i < |ids| ==> ids[1..][i - 1] == ids[i];
        match rest
        case Err(e) =>
          var i :| 0 <= i < |ids[1..]| && resolve(parent, collection, ids[1..][i]) == Err(e) &&
            forall j :: 0 <= j < i ==> resolve(parent, collection, ids[1..][j]).Ok?;
          assert resolve(parent, collection, ids[i + 1]) == Err(e);
          Err(e)
        case Ok(paths) => Ok([path] + paths)
  }

  /** The request: the resolved paths in id order, the session's database and
      consistency selector, and the caller's mask. A failing resolution, then
      a failing selector conversion, ends the call before any RPC. */
  function BuildRequest(s: Session, resolve: Resolver, parent: string, collection: string,
                        ids: seq<string>, mask: Mask)
    : (r: Result<BatchRequest>)
    ensures r.Ok? <==> s.consistency.Ok? && forall i :: 0 <= i < |ids| ==> resolve(parent, collection, ids[i]).Ok?
    ensures r.Ok? ==> && |r.value.documents| == |ids|
                      && (forall i :: 0 <= i < |ids| ==> resolve(parent, collection, ids[i]) == Ok(r.value.documents[i]))
                      && r.value.database == s.databasePath
                      && Ok(r.value.consistency) == s.consistency
                      && r.value.mask == mask
    ensures ResolveAll(resolve, parent, collection, ids).Err? ==> r == Err(ResolveAll(resolve, parent, collection, ids).error)
  {
    match ResolveAll(resolve, parent, collection, ids)
    case Err(e) => Err(e)
    case Ok(paths) =>
      match s.consistency
      case Err(e) => Err(e)
      case Ok(c) => Ok(BatchRequest(s.databasePath, paths, c, mask))
  }

  /** The element one stream item yields, if any. */
  function CorrelateItem(item: Result<Envelope>): Option<Result<Pair<Document>>>
  {
    match item
    case Err(e) => Some(Err(e))
    case Ok(envelope) =>
      match envelope.result
      case None => None
      case Some(Found(doc)) => Some(Ok((ShortId(doc.name), Some(doc))))
      case Some(Missing(name)) => Some(Ok((ShortId(name), None)))
  }

  /** The `filter_map` over the response stream. */
  function Correlate(stream: seq<Result<Envelope>>): seq<Result<Pair<Document>>>
  {
    FilterMap(stream, CorrelateItem)
  }

  /** `batch_stream_get_docs_at_with_errors`. */
  function BatchGetDocsAtWithErrors(s: Session, resolve: Resolver, parent: string, collection: string,
                                    ids: seq<string>, mask: Mask, rpc: BatchRpc)
    : (r: Result<seq<Result<Pair<Document>>>>)
    ensures var request := BuildRequest(s, resolve, parent, collection, ids, mask);
      && (request.Err? ==> r == Err(request.error))
      && (request.Ok? && rpc(request.value).Err? ==> r == Err(rpc(request.value).error))
      && (r.Ok? <==> request.Ok? && rpc(request.value).Ok?)
      && (r.Ok? ==> r.value == Correlate(rpc(request.value).value) && |r.value| <= |rpc(request.value).value|)
  {
    match BuildRequest(s, resolve, parent, collection, ids, mask)
    case Err(e) => Err(e)
    case Ok(request) =>
      match rpc(request)
      case Err(e) => Err(e)
      case Ok(stream) => Ok(Correlate(stream))
  }

  // ---------------------------------------------------------------------
  // Properties of the correlation

  predicate IsTransportError(item: Result<Envelope>) { item.Err? }
  predicate IsFound(item: Result<Envelope>) { item.Ok? && item.value.result.Some? && item.value.result.value.Found? }
  predicate IsMissing(item: Result<Envelope>) { item.Ok? && item.value.result.Some? && item.value.result.value.Missing? }
  predicate YieldsElement(item: Result<Envelope>) { item.Err? || item.value.result.Some? }

  predicate IsErrElement<V>(e: Result<Pair<V>>) { e.Err? }
  predicate IsFoundElement<V>(e: Result<Pair<V>>) { e.Ok? && e.value.1.Some? }
  predicate IsMissingElement<V>(e: Result<Pair<V>>) { e.Ok? && e.value.1.None? }

  /** The full name an item reports, when it has a result. */
  function ResultName(item: Result<Envelope>): Option<string>
  {
    match item
    case Err(_) => None
    case Ok(envelope) =>
      match envelope.result
      case None => None
      case Some(Found(doc)) => Some(doc.name)
      case Some(Missing(name)) => Some(name)
  }

  /** The id of an element that is not an error. */
  function OkId<V>(e: Result<Pair<V>>): Option<string>
  {
    match e
    case Err(_) => None
    case Ok(pair) => Some(pair.0)
  }

  /** How the head of the stream is correlated: a found document becomes
      `Ok((id, Some(doc)))`, a missing one `Ok((id, None))`, a transport error
      an `Err` element of its own, and a response without a result nothing;
      the rest of the stream follows in its order. */
  lemma CorrelateCons(item: Result<Envelope>, rest: seq<Result<Envelope>>)
    ensures item.Err? ==> Correlate([item] + rest) == [Err(item.error)] + Correlate(rest)
    ensures IsFound(item) ==> var doc := item.value.result.value.document;
      Correlate([item] + rest) == [Ok((ShortId(doc.name), Some(doc)))] + Correlate(rest)
    ensures IsMissing(item) ==> var name := item.value.result.value.name;
      Correlate([item] + rest) == [Ok((ShortId(name), None))] + Correlate(rest)
    ensures !YieldsElement(item) ==> Correlate([item] + rest) == Correlate(rest)
  {
    assert ([item] + rest)[0] == item;
    assert ([item] + rest)[1..] == rest;
  }

  /** Output order follows arrival order: correlating a stream piece by piece
      and concatenating gives the correlation of the whole stream. */
  lemma CorrelateAppend(a: seq<Result<Envelope>>, b: seq<Result<Envelope>>)
    ensures Correlate(a + b) == Correlate(a) + Correlate(b)
  {
    FilterMapAppend(a, b, CorrelateItem);
  }

  /** One output element per stream item that is an error or carries a
      result, so never more elements than items. */
  lemma {:induction false} CorrelateLength(stream: seq<Result<Envelope>>)
    ensures |Correlate(stream)| == Count(stream, YieldsElement) <= |stream|
    decreases |stream|
  {
    if |stream| != 0 {
      CorrelateLength(stream[1..]);
      CorrelateCons(stream[0], stream[1..]);
      assert stream == [stream[0]] + stream[1..];
    }
  }

  /** Errors, missing documents and found documents stay apart: the output
      has exactly as many `Err` elements as the stream has transport errors,
      as many `(id, None)` elements as missing results, and as many
      `(id, Some(doc))` elements as found results. */
  lemma {:induction false} CorrelateKeepsKindsApart(stream: seq<Result<Envelope>>)
    ensures Count(Correlate(stream), IsErrElement) == Count(stream, IsTransportError)
    ensures Count(Correlate(stream), IsMissingElement) == Count(stream, IsMissing)
    ensures Count(Correlate(stream), IsFoundElement) == Count(stream, IsFound)
    decreases |stream|
  {
    if |stream| != 0 {
      var head, rest := stream[0], stream[1..];
      assert stream == [head] + rest;
      CorrelateKeepsKindsApart(rest);
      CorrelateCons(head, rest);
      var out := Correlate(stream);
      if YieldsElement(head) {
        assert out[1..] == Correlate(rest);
      } else {
        assert out == Correlate(rest);
      }
    }
  }

  /** Identity: the ids of the non-error elements are the short ids of the
      names the responses report, in arrival order. */
  lemma {:induction false} CorrelateIds(stream: seq<Result<Envelope>>)
    ensures FilterMap(Correlate(stream), OkId) == MapSeq(FilterMap(stream, ResultName), ShortId)
    decreases |stream|
  {
    if |stream| != 0 {
      var head, rest := stream[0], stream[1..];
      assert stream == [head] + rest;
      CorrelateIds(rest);
      CorrelateCons(head, rest);
      FilterMapAppend([head], rest, ResultName);
      var names := FilterMap([head], ResultName);
      MapSeqAppend(names, FilterMap(rest, ResultName), ShortId);
      FilterMapAppend(FilterMap([head], CorrelateItem), Correlate(rest), OkId);
      FilterMapAppend([head], rest, CorrelateItem);
    }
  }

  /** When every requested path is answered once, in any order, and each id
      is the short id of its own path, the ids of the output are the input
      ids up to order (transport errors aside, which carry no id). The paths
      are those `BuildRequest` puts in the request, in id order. */
  lemma IdentityPreserved(ids: seq<string>, paths: seq<string>, stream: seq<Result<Envelope>>)
    requires |paths| == |ids|
    requires forall i :: 0 <= i < |ids| ==> ShortId(paths[i]) == ids[i]
    requires multiset(FilterMap(stream, ResultName)) == multiset(paths)
    ensures multiset(FilterMap(Correlate(stream), OkId)) == multiset(ids)
  {
    CorrelateIds(stream);
    MapSeqPermutation(FilterMap(stream, ResultName), paths, ShortId);
    assert MapSeq(paths, ShortId) == ids;
  }

  /** `IdentityPreserved` for the whole batch call: the paths are those
      `BuildRequest` resolved from the ids, and the service answers each of
      them once, in any order. */
  lemma BatchIdentityPreserved(s: Session, resolve: Resolver, parent: string, collection: string,
                               ids: seq<string>, mask: Mask, rpc: BatchRpc)
    requires BuildRequest(s, resolve, parent, collection, ids, mask).Ok?
    requires forall i :: 0 <= i < |ids| ==> ShortId(resolve(parent, collection, ids[i]).value) == ids[i]
    requires rpc(BuildRequest(s, resolve, parent, collection, ids, mask).value).Ok?
    requires var req := BuildRequest(s, resolve, parent, collection, ids, mask).value;
      multiset(FilterMap(rpc(req).value, ResultName)) == multiset(req.documents)
    ensures BatchGetDocsAtWithErrors(s, resolve, parent, collection, ids, mask, rpc).Ok?
    ensures multiset(FilterMap(BatchGetDocsAtWithErrors(s, resolve, parent, collection, ids, mask, rpc).value, OkId))
      == multiset(ids)
  {
    var req := BuildRequest(s, resolve, parent, collection, ids, mask).value;
    IdentityPreserved(ids, req.documents, rpc(req).value);
  }

  /** Example: ids a, b, c answered by a found `b`, a missing `a`
      and a transport error give three elements, in arrival order. */
  lemma ScenarioThreeIds(s: Session, resolve: Resolver, parent: string, collection: string, prefix: string,
                         rpc: BatchRpc, b: Document, failure: FirestoreError)
    requires BuildRequest(s, resolve, parent, collection, ["a", "b", "c"], None).Ok?
    requires b.name == prefix + "/b"
    requires rpc(BuildRequest(s, resolve, parent, collection, ["a", "b", "c"], None).value)
      == Ok([Ok(Envelope(Some(Found(b)))), Ok(Envelope(Some(Missing(prefix + "/a")))), Err(failure)])
    ensures BatchGetDocsAtWithErrors(s, resolve, parent, collection, ["a", "b", "c"], None, rpc)
      == Ok([Ok(("b", Some(b))), Ok(("a", None)), Err(failure)])
  {
    ShortIdOfChild(prefix, "b");
    ShortIdOfChild(prefix, "a");
    assert prefix + "/b" == prefix + "/" + "b";
    assert prefix + "/a" == prefix + "/" + "a";
    var items := [Ok(Envelope(Some(Found(b)))), Ok(Envelope(Some(Missing(prefix + "/a")))), Err(failure)];
    CorrelateCons(items[0], items[1..]);
    CorrelateCons(items[1], items[2..]);
    CorrelateCons(items[2], []);
    assert items[2..] == [items[2]] + [];
    assert Correlate(items[2..]) == [Err(failure)];
    assert items[1..] == [items[1]] + items[2..];
    assert Correlate(items[1..]) == [Ok(("a", None)), Err(failure)];
    assert items == [items[0]] + items[1..];
    assert Correlate(items) == [Ok(("b", Some(b))), Ok(("a", None)), Err(failure)];
  }
}
