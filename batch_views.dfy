/** The projections built on the batch correlator: the error-suppressing view
    (`batch_stream_get_docs_at`), the typed suppressing view
    (`batch_stream_get_objects_at`), the typed error-preserving view
    (`batch_stream_get_objects_at_with_errors`), and the default-scope forms
    of all of them. `decode` stands for `deserialize_doc_to`. */
module BatchViews {
  import opened Types
  import opened Seqs
  import opened BatchGet

  type Decoder<T> = Document -> Result<T>

  function OkPayload<P>(e: Result<P>): Option<P>
  {
    match e
    case Ok(p) => Some(p)
    case Err(_) => None
  }

  /** The error-suppressing filter: the payloads of the `Ok` elements, in
      order; `Err` elements are logged and dropped. */
  function SuppressErrors<P>(elements: seq<Result<P>>): seq<P>
  {
    FilterMap(elements, OkPayload)
  }

  /** One element of the typed suppressing view: a missing document stays
      missing, a document that decodes is replaced by its object, and one
      that does not decode is dropped. */
  function DecodeOrDropPair<T>(decode: Decoder<T>, pair: Pair<Document>): Option<Pair<T>>
  {
    match pair.1
    case None => Some((pair.0, None))
    case Some(doc) =>
      match decode(doc)
      case Ok(obj) => Some((pair.0, Some(obj)))
      case Err(_) => None
  }

  function DecodeOrDrop<T>(pairs: seq<Pair<Document>>, decode: Decoder<T>): seq<Pair<T>>
  {
    FilterMap(pairs, p => DecodeOrDropPair(decode, p))
  }

  /** One element of the typed error-preserving view (`and_then` with
      `map(deserialize).transpose()`): errors pass through, a missing document
      stays missing, a decode failure becomes that element's error. */
  function DecodeElement<T>(decode: Decoder<T>, e: Result<Pair<Document>>): Result<Pair<T>>
  {
    match e
    case Err(err) => Err(err)
    case Ok((id, None)) => Ok((id, None))
    case Ok((id, Some(doc))) =>
      match decode(doc)
      case Ok(obj) => Ok((id, Some(obj)))
      case Err(err) => Err(err)
  }

  /** The typed error-preserving view: one output element per input
      element, at the same position. */
  function DecodeAll<T>(elements: seq<Result<Pair<Document>>>, decode: Decoder<T>): (r: seq<Result<Pair<T>>>)
    ensures |r| == |elements|
    ensures forall i :: 0 <= i < |elements| && elements[i].Err? ==> r[i] == Err(elements[i].error)
    ensures forall i :: 0 <= i < |elements| && IsMissingElement(elements[i]) ==> r[i] == Ok((elements[i].value.0, None))
    ensures forall i :: 0 <= i < |elements| && IsFoundElement(elements[i]) ==>
      var doc := elements[i].value.1.value;
      r[i] == match decode(doc)
              case Ok(obj) => Ok((elements[i].value.0, Some(obj)))
              case Err(err) => Err(err)
  {
    MapSeq(elements, e => DecodeElement(decode, e))
  }

  // ---------------------------------------------------------------------
  // The public batch operations

  /** `batch_stream_get_docs_at`. */
  function BatchGetDocsAt(s: Session, resolve: Resolver, parent: string, collection: string,
                          ids: seq<string>, mask: Mask, rpc: BatchRpc)
    : (r: Result<seq<Pair<Document>>>)
    ensures var w := BatchGetDocsAtWithErrors(s, resolve, parent, collection, ids, mask, rpc);
      && (w.Err? ==> r == Err(w.error))
      && (w.Ok? ==> r.Ok? && |r.value| == Count(w.value, IsOk) <= |w.value|)
  {
    match BatchGetDocsAtWithErrors(s, resolve, parent, collection, ids, mask, rpc)
    case Err(e) => Err(e)
    case Ok(elements) =>
      SuppressErrorsLength(elements);
      Ok(SuppressErrors(elements))
  }

  /** `batch_stream_get_docs`: the same under the default documents path. */
  function BatchGetDocs(s: Session, resolve: Resolver, collection: string,
                        ids: seq<string>, mask: Mask, rpc: BatchRpc)
    : (r: Result<seq<Pair<Document>>>)
    ensures r == BatchGetDocsAt(s, resolve, s.documentsPath, collection, ids, mask, rpc)
  {
    BatchGetDocsAt(s, resolve, s.documentsPath, collection, ids, mask, rpc)
  }

  /** `batch_stream_get_docs_with_errors`. */
  function BatchGetDocsWithErrors(s: Session, resolve: Resolver, collection: string,
                                  ids: seq<string>, mask: Mask, rpc: BatchRpc)
    : (r: Result<seq<Result<Pair<Document>>>>)
    ensures r == BatchGetDocsAtWithErrors(s, resolve, s.documentsPath, collection, ids, mask, rpc)
  {
    BatchGetDocsAtWithErrors(s, resolve, s.documentsPath, collection, ids, mask, rpc)
  }

  /** `batch_stream_get_objects_at`. */
  function BatchGetObjectsAt<T>(s: Session, resolve: Resolver, parent: string, collection: string,
                                ids: seq<string>, mask: Mask, rpc: BatchRpc, decode: Decoder<T>)
    : (r: Result<seq<Pair<T>>>)
    ensures var docs := BatchGetDocsAt(s, resolve, parent, collection, ids, mask, rpc);
      && (docs.Err? ==> r == Err(docs.error))
      && (docs.Ok? ==> r.Ok? && |r.value| <= |docs.value|)
  {
    match BatchGetDocsAt(s, resolve, parent, collection, ids, mask, rpc)
    case Err(e) => Err(e)
    case Ok(pairs) => Ok(DecodeOrDrop(pairs, decode))
  }

  /** `batch_stream_get_objects`. */
  function BatchGetObjects<T>(s: Session, resolve: Resolver, collection: string,
                              ids: seq<string>, mask: Mask, rpc: BatchRpc, decode: Decoder<T>)
    : (r: Result<seq<Pair<T>>>)
    ensures r == BatchGetObjectsAt(s, resolve, s.documentsPath, collection, ids, mask, rpc, decode)
  {
    BatchGetObjectsAt(s, resolve, s.documentsPath, collection, ids, mask, rpc, decode)
  }

  /** `batch_stream_get_objects_at_with_errors`. */
  function BatchGetObjectsAtWithErrors<T>(s: Session, resolve: Resolver, parent: string, collection: string,
                                          ids: seq<string>, mask: Mask, rpc: BatchRpc, decode: Decoder<T>)
    : (r: Result<seq<Result<Pair<T>>>>)
    ensures var w := BatchGetDocsAtWithErrors(s, resolve, parent, collection, ids, mask, rpc);
      && (w.Err? ==> r == Err(w.error))
      && (w.Ok? ==> r.Ok? && |r.value| == |w.value|)
  {
    match BatchGetDocsAtWithErrors(s, resolve, parent, collection, ids, mask, rpc)
    case Err(e) => Err(e)
    case Ok(elements) => Ok(DecodeAll(elements, decode))
  }

  /** `batch_stream_get_objects_with_errors`, which repeats the decoding step
      under the default documents path instead of delegating; it agrees with
      the scoped form. */
  function BatchGetObjectsWithErrors<T>(s: Session, resolve: Resolver, collection: string,
                                        ids: seq<string>, mask: Mask, rpc: BatchRpc, decode: Decoder<T>)
    : (r: Result<seq<Result<Pair<T>>>>)
    ensures r == BatchGetObjectsAtWithErrors(s, resolve, s.documentsPath, collection, ids, mask, rpc, decode)
  {
    match BatchGetDocsAtWithErrors(s, resolve, s.documentsPath, collection, ids, mask, rpc)
    case Err(e) => Err(e)
    case Ok(elements) => Ok(MapSeq(elements, e => DecodeElement(decode, e)))
  }

  // ---------------------------------------------------------------------
  // Properties of the views

  predicate IsOk<P>(e: Result<P>) { e.Ok? }
  predicate IsMissingPair<V>(p: Pair<V>) { p.1.None? }

  /** The suppressing view keeps exactly the `Ok` payloads. */
  lemma {:induction false} SuppressErrorsMember<P>(elements: seq<Result<P>>)
    ensures |SuppressErrors(elements)| <= |elements|
    ensures forall p :: p in SuppressErrors(elements) <==> Ok(p) in elements
  {
    forall p
      ensures p in SuppressErrors(elements) <==> Ok(p) in elements
    {
      FilterMapMember(elements, OkPayload, p);
      if Ok(p) in elements {
        var i :| 0 <= i < |elements| && elements[i] == Ok(p);
        assert OkPayload(elements[i]) == Some(p);
      }
    }
  }

  /** The suppressing view has one element per `Ok` element. */
  lemma {:induction false} SuppressErrorsLength<P>(elements: seq<Result<P>>)
    ensures |SuppressErrors(elements)| == Count(elements, IsOk)
    decreases |elements|
  {
    if |elements| != 0 {
      SuppressErrorsLength(elements[1..]);
    }
  }

  /** Liveness: an error element removes itself and nothing else; what
      follows it still comes out, in order. */
  lemma SuppressErrorsSkipsError<P>(before: seq<Result<P>>, e: FirestoreError, after: seq<Result<P>>)
    ensures SuppressErrors(before + [Err(e)] + after) == SuppressErrors(before) + SuppressErrors(after)
  {
    FilterMapAppend(before + [Err(e)], after, OkPayload);
    FilterMapAppend(before, [Err(e)], OkPayload);
    var single: seq<Result<P>> := [Err(e)];
    assert SuppressErrors(single) == [];
  }

  /** A missing document is never an error: the suppressing view has as many
      `(id, None)` pairs as its input has `Ok((id, None))` elements. */
  lemma {:induction false} SuppressErrorsKeepsMissing<V>(elements: seq<Result<Pair<V>>>)
    ensures Count(SuppressErrors(elements), IsMissingPair) == Count(elements, IsMissingElement)
    decreases |elements|
  {
    if |elements| != 0 {
      var head, rest := elements[0], elements[1..];
      assert elements == [head] + rest;
      SuppressErrorsKeepsMissing(rest);
      FilterMapCons(head, rest, OkPayload);
      CountCons(head, rest, IsMissingElement);
      if head.Ok? {
        CountCons(head.value, SuppressErrors(rest), IsMissingPair);
        assert IsMissingPair(head.value) == IsMissingElement(head);
      } else {
        assert SuppressErrors(elements) == SuppressErrors(rest);
      }
    }
  }

  /** In the typed suppressing view every missing pair is kept as it is. */
  lemma {:induction false} DecodeOrDropKeepsMissing<T>(pairs: seq<Pair<Document>>, decode: Decoder<T>)
    ensures Count(DecodeOrDrop(pairs, decode), IsMissingPair) == Count(pairs, IsMissingPair)
    decreases |pairs|
  {
    if |pairs| != 0 {
      var head, rest := pairs[0], pairs[1..];
      assert pairs == [head] + rest;
      DecodeOrDropKeepsMissing(rest, decode);
      FilterMapCons(head, rest, p => DecodeOrDropPair(decode, p));
      CountCons(head, rest, IsMissingPair);
      var kept := DecodeOrDropPair(decode, head);
      if kept.Some? {
        CountCons(kept.value, DecodeOrDrop(rest, decode), IsMissingPair);
      } else {
        assert DecodeOrDrop(pairs, decode) == DecodeOrDrop(rest, decode);
      }
    }
  }

  /** A typed pair comes out of the suppressing view exactly when the input
      holds the same id missing, or holds a document that decodes to it. */
  lemma DecodeOrDropMember<T>(pairs: seq<Pair<Document>>, decode: Decoder<T>, id: string, obj: Option<T>)
    ensures (id, obj) in DecodeOrDrop(pairs, decode) <==>
      exists i :: 0 <= i < |pairs| && pairs[i].0 == id &&
        match obj
        case None => pairs[i].1.None?
        case Some(o) => pairs[i].1.Some? && decode(pairs[i].1.value) == Ok(o)
  {
    FilterMapMember(pairs, p => DecodeOrDropPair(decode, p), (id, obj));
  }

  /** Liveness: a document that fails to decode removes itself and nothing
      else. */
  lemma DecodeOrDropSkipsFailure<T>(before: seq<Pair<Document>>, id: string, doc: Document,
                                    after: seq<Pair<Document>>, decode: Decoder<T>)
    requires decode(doc).Err?
    ensures DecodeOrDrop(before + [(id, Some(doc))] + after, decode) == DecodeOrDrop(before, decode) + DecodeOrDrop(after, decode)
  {
    var f := p => DecodeOrDropPair(decode, p);
    FilterMapAppend(before + [(id, Some(doc))], after, f);
    FilterMapAppend(before, [(id, Some(doc))], f);
    assert DecodeOrDrop([(id, Some(doc))], decode) == [];
  }

  /** The two typed views agree: suppressing the errors of the
      error-preserving view gives the suppressing view. */
  lemma {:induction false} SuppressedDecodeAgrees<T>(elements: seq<Result<Pair<Document>>>, decode: Decoder<T>)
    ensures SuppressErrors(DecodeAll(elements, decode)) == DecodeOrDrop(SuppressErrors(elements), decode)
    decreases |elements|
  {
    if |elements| != 0 {
      var head, rest := elements[0], elements[1..];
      SuppressedDecodeAgrees(rest, decode);
      assert elements == [head] + rest;
      var decoded := DecodeElement(decode, head);
      assert DecodeAll(elements, decode) == [decoded] + DecodeAll(rest, decode);
      FilterMapCons(decoded, DecodeAll(rest, decode), OkPayload);
      FilterMapCons(head, rest, OkPayload);
      if head.Ok? {
        assert SuppressErrors(elements) == [head.value] + SuppressErrors(rest);
        FilterMapCons(head.value, SuppressErrors(rest), p => DecodeOrDropPair(decode, p));
        assert OkPayload(decoded) == DecodeOrDropPair(decode, head.value);
      } else {
        assert SuppressErrors(elements) == SuppressErrors(rest);
        assert SuppressErrors(DecodeAll(elements, decode)) == SuppressErrors(DecodeAll(rest, decode));
      }
    } else {
      assert DecodeAll(elements, decode) == [];
    }
  }

  /** Whole-call form of the agreement above: `batch_stream_get_objects_at`
      is `batch_stream_get_objects_at_with_errors` with the errors dropped. */
  lemma ObjectsAtIsSuppressedWithErrors<T>(s: Session, resolve: Resolver, parent: string, collection: string,
                                           ids: seq<string>, mask: Mask, rpc: BatchRpc, decode: Decoder<T>)
    ensures var plain := BatchGetObjectsAt(s, resolve, parent, collection, ids, mask, rpc, decode);
      var full := BatchGetObjectsAtWithErrors(s, resolve, parent, collection, ids, mask, rpc, decode);
      && (plain.Ok? <==> full.Ok?)
      && (plain.Ok? ==> plain.value == SuppressErrors(full.value))
      && (plain.Err? ==> plain.error == full.error)
  {
    var w := BatchGetDocsAtWithErrors(s, resolve, parent, collection, ids, mask, rpc);
    if w.Ok? {
      SuppressedDecodeAgrees(w.value, decode);
    }
  }

  /** Missing versus error: for a stream the service delivered, a missing
      document comes out as `(id, None)` in every view; both the document
      view and the typed view have as many missing pairs as the stream has
      missing results. */
  lemma MissingIsNotAnError<T>(s: Session, resolve: Resolver, parent: string, collection: string,
                               ids: seq<string>, mask: Mask, rpc: BatchRpc, decode: Decoder<T>)
    requires BuildRequest(s, resolve, parent, collection, ids, mask).Ok?
    requires rpc(BuildRequest(s, resolve, parent, collection, ids, mask).value).Ok?
    ensures var stream := rpc(BuildRequest(s, resolve, parent, collection, ids, mask).value).value;
      var docs := BatchGetDocsAt(s, resolve, parent, collection, ids, mask, rpc);
      var objs := BatchGetObjectsAt(s, resolve, parent, collection, ids, mask, rpc, decode);
      && docs.Ok? && objs.Ok?
      && Count(docs.value, IsMissingPair) == Count(stream, IsMissing)
      && Count(objs.value, IsMissingPair) == Count(stream, IsMissing)
  {
    var stream := rpc(BuildRequest(s, resolve, parent, collection, ids, mask).value).value;
    CorrelateKeepsKindsApart(stream);
    SuppressErrorsKeepsMissing(Correlate(stream));
    DecodeOrDropKeepsMissing(SuppressErrors(Correlate(stream)), decode);
  }

  /** Example, through the suppressing view: the transport error
      is dropped and the other two pairs come out in arrival order. */
  lemma ScenarioSuppressed(s: Session, resolve: Resolver, parent: string, collection: string, prefix: string,
                           rpc: BatchRpc, b: Document, failure: FirestoreError)
    requires BuildRequest(s, resolve, parent, collection, ["a", "b", "c"], None).Ok?
    requires b.name == prefix + "/b"
    requires rpc(BuildRequest(s, resolve, parent, collection, ["a", "b", "c"], None).value)
      == Ok([Ok(Envelope(Some(Found(b)))), Ok(Envelope(Some(Missing(prefix + "/a")))), Err(failure)])
    ensures BatchGetDocsAt(s, resolve, parent, collection, ["a", "b", "c"], None, rpc)
      == Ok([("b", Some(b)), ("a", None)])
  {
    ScenarioThreeIds(s, resolve, parent, collection, prefix, rpc, b, failure);
    var e0, e1, e2: Result<Pair<Document>> := Ok(("b", Some(b))), Ok(("a", None)), Err(failure);
    FilterMapCons(e2, [], OkPayload);
    FilterMapCons(e1, [e2], OkPayload);
    FilterMapCons(e0, [e1, e2], OkPayload);
    assert [e0, e1, e2] == [e0] + [e1, e2];
    assert [e1, e2] == [e1] + [e2];
    assert [e2] == [e2] + [];
    assert SuppressErrors([e0, e1, e2]) == [("b", Some(b)), ("a", None)];
  }
}
