/** Single-document retrieval: `get_doc_by_path` with its bounded retry, and
    the `get_doc*` / `get_obj*` operations built on it.

    The `GetDocument` RPC is the parameter `rpc`: `rpc(k)` is the outcome the
    service gives to the attempt made with retry counter `k`. Every request
    that is issued is recorded in the out-parameter `sent`, so the mask of
    each attempt can be observed. */
module SingleGet {
  import opened Types

  /** The request of one attempt: document name, consistency selector, mask. */
  datatype GetRequest = GetRequest(name: string, consistency: Option<Consistency>, mask: Mask)

  /** The guard under which a failed attempt is retried: a `DatabaseError`
      marked `retry_possible`, while the counter is below the maximum. */
  predicate Retried(outcome: Result<Document>, retries: nat, maxRetries: nat)
  {
    outcome.Err? && outcome.error.DatabaseError? && outcome.error.retryPossible && retries < maxRetries
  }

  /** The recursive definition of `get_doc_by_path(path, mask, retries)`:
      the result and the requests issued, in order. Each attempt first
      converts the consistency selector (an error there ends the call before
      any request); a retry goes again with `retries + 1` and no mask. */
  function Fetch(s: Session, path: string, mask: Mask, retries: nat, rpc: nat -> Result<Document>)
    : (Result<Document>, seq<GetRequest>)
    decreases if retries <= s.maxRetries then s.maxRetries - retries else 0
  {
    match s.consistency
    case Err(e) => (Err(e), [])
    case Ok(c) =>
      var request := GetRequest(path, c, mask);
      var outcome := rpc(retries);
      if Retried(outcome, retries, s.maxRetries) then
        var (r, later) := Fetch(s, path, None, retries + 1, rpc);
        (r, [request] + later)
      else
        (outcome, [request])
  }

  /** `get_doc_by_path`, with the self-recursion turned into a loop over the
      attempt counter. */
  method GetDocByPath(s: Session, path: string, mask: Mask, retries: nat, rpc: nat -> Result<Document>)
    returns (r: Result<Document>, sent: seq<GetRequest>)
    ensures (r, sent) == Fetch(s, path, mask, retries, rpc)
    ensures |sent| <= (if retries < s.maxRetries then s.maxRetries - retries else 0) + 1
    ensures forall k :: 1 <= k < |sent| ==> sent[k].mask == None
  {
    var attempt := retries;
    var attemptMask := mask;
    sent := [];
    assert sent + Fetch(s, path, attemptMask, attempt, rpc).1 == Fetch(s, path, attemptMask, attempt, rpc).1;
    while true
      invariant attempt >= retries
      invariant Fetch(s, path, mask, retries, rpc)
        == (Fetch(s, path, attemptMask, attempt, rpc).0, sent + Fetch(s, path, attemptMask, attempt, rpc).1)
      decreases if attempt <= s.maxRetries then s.maxRetries - attempt else 0
    {
      if s.consistency.Err? {
        r := Err(s.consistency.error);
        break;
      }
      var request := GetRequest(path, s.consistency.value, attemptMask);
      sent := sent + [request];
      var outcome := rpc(attempt);
      if Retried(outcome, attempt, s.maxRetries) {
        ghost var later := Fetch(s, path, None, attempt + 1, rpc).1;
        assert (sent[..|sent| - 1] + ([request] + later)) == sent + later;
        attempt, attemptMask := attempt + 1, None;
      } else {
        r := outcome;
        break;
      }
    }
    FetchAttempts(s, path, mask, retries, rpc);
    FetchRequests(s, path, mask, retries, rpc);
  }

  /** Attempt bound: at most one attempt more than the retries left, and no
      attempt at all exactly when the consistency selector cannot be
      converted (whose error is then the result). */
  lemma {:induction false} FetchAttempts(s: Session, path: string, mask: Mask, retries: nat, rpc: nat -> Result<Document>)
    ensures var (r, sent) := Fetch(s, path, mask, retries, rpc);
      && |sent| <= (if retries < s.maxRetries then s.maxRetries - retries else 0) + 1
      && (sent == [] <==> s.consistency.Err?)
      && (s.consistency.Err? ==> r == Err(s.consistency.error))
    decreases if retries <= s.maxRetries then s.maxRetries - retries else 0
  {
    if s.consistency.Ok? && Retried(rpc(retries), retries, s.maxRetries) {
      FetchAttempts(s, path, None, retries + 1, rpc);
    }
  }

  /** What each attempt asks for: the same document and consistency every
      time; the caller's mask on the first attempt and no mask on every
      retry. */
  lemma {:induction false} FetchRequests(s: Session, path: string, mask: Mask, retries: nat, rpc: nat -> Result<Document>)
    ensures var sent := Fetch(s, path, mask, retries, rpc).1;
      && (forall k :: 0 <= k < |sent| ==> sent[k].name == path && s.consistency == Ok(sent[k].consistency))
      && (|sent| > 0 ==> sent[0].mask == mask)
      && (forall k :: 1 <= k < |sent| ==> sent[k].mask == None)
    decreases if retries <= s.maxRetries then s.maxRetries - retries else 0
  {
    if s.consistency.Ok? && Retried(rpc(retries), retries, s.maxRetries) {
      FetchRequests(s, path, None, retries + 1, rpc);
      var later := Fetch(s, path, None, retries + 1, rpc).1;
      var sent := Fetch(s, path, mask, retries, rpc).1;
      assert sent[1..] == later;
      forall k | 1 <= k < |sent|
        ensures sent[k].mask == None
      {
        assert sent[k] == later[k - 1];
      }
    }
  }

  /** The outcome of a call: attempt `k` is made with counter `k`, starting at
      `retries`; every attempt but the last failed in a way that is retried,
      the last is not retried, and its outcome is returned unchanged. */
  lemma {:induction false} FetchOutcome(s: Session, path: string, mask: Mask, retries: nat, rpc: nat -> Result<Document>)
    requires s.consistency.Ok?
    ensures var (r, sent) := Fetch(s, path, mask, retries, rpc);
      var last := retries + |sent| - 1;
      && |sent| >= 1
      && r == rpc(last)
      && !Retried(rpc(last), last, s.maxRetries)
      && forall k :: retries <= k < last ==> Retried(rpc(k), k, s.maxRetries)
    decreases if retries <= s.maxRetries then s.maxRetries - retries else 0
  {
    if Retried(rpc(retries), retries, s.maxRetries) {
      FetchOutcome(s, path, None, retries + 1, rpc);
    }
  }

  /** A success, an error other than `DatabaseError`, or a `DatabaseError`
      that is not `retry_possible` ends the call after one attempt, and the
      outcome is returned as it is. */
  lemma FetchStopsAtTerminalOutcome(s: Session, path: string, mask: Mask, retries: nat, rpc: nat -> Result<Document>)
    requires s.consistency.Ok?
    requires rpc(retries).Ok? || !rpc(retries).error.DatabaseError? || !rpc(retries).error.retryPossible
    ensures Fetch(s, path, mask, retries, rpc) == (rpc(retries), [GetRequest(path, s.consistency.value, mask)])
  {
  }

  /** Retry exhaustion: when every attempt fails with a retryable
      `DatabaseError`, exactly `maxRetries - retries + 1` attempts are made and
      the error of the last one is returned. */
  lemma {:induction false} FetchExhausted(s: Session, path: string, mask: Mask, retries: nat, rpc: nat -> Result<Document>)
    requires s.consistency.Ok? && retries <= s.maxRetries
    requires forall k :: retries <= k <= s.maxRetries ==>
      rpc(k).Err? && rpc(k).error.DatabaseError? && rpc(k).error.retryPossible
    ensures |Fetch(s, path, mask, retries, rpc).1| == s.maxRetries - retries + 1
    ensures Fetch(s, path, mask, retries, rpc).0 == rpc(s.maxRetries)
    decreases s.maxRetries - retries
  {
    if retries < s.maxRetries {
      FetchExhausted(s, path, None, retries + 1, rpc);
    }
  }

  // ---------------------------------------------------------------------
  // The operations on top of get_doc_by_path

  /** `get_doc_at`: resolve the path with `safe_document_path` (here
      `resolve`), then fetch it starting from retry counter 0. */
  function DocAt(s: Session, resolve: (string, string, string) -> Result<string>,
                 parent: string, collection: string, id: string, mask: Mask, rpc: nat -> Result<Document>)
    : (Result<Document>, seq<GetRequest>)
  {
    match resolve(parent, collection, id)
    case Err(e) => (Err(e), [])
    case Ok(path) => Fetch(s, path, mask, 0, rpc)
  }

  /** `deserialize_doc_to` applied after a successful fetch; a fetch error is
      passed on (the `?` operator). */
  function Decoded<T>(fetched: Result<Document>, decode: Document -> Result<T>): Result<T>
  {
    match fetched
    case Err(e) => Err(e)
    case Ok(doc) => decode(doc)
  }

  /** The existence folding of `get_obj_at_if_exists`. */
  function FoldNotFound<T>(r: Result<T>): (o: Result<Option<T>>)
    ensures o.Ok? && o.value.Some? <==> r.Ok?
    ensures r.Ok? ==> o == Ok(Some(r.value))
    ensures o == Ok(None) <==> r.Err? && r.error.DataNotFoundError?
    ensures o.Err? <==> r.Err? && !r.error.DataNotFoundError?
    ensures o.Err? ==> o.error == r.error
  {
    match r
    case Ok(obj) => Ok(Some(obj))
    case Err(e) => if e.DataNotFoundError? then Ok(None) else Err(e)
  }

  /** A call by id never makes more than `maxRetries + 1` attempts; a path
      that does not resolve fails with the resolver's error before any
      request; every request names the resolved path, the first with the
      caller's mask and the retries with none. */
  lemma DocAtRequests(s: Session, resolve: (string, string, string) -> Result<string>,
                      parent: string, collection: string, id: string, mask: Mask, rpc: nat -> Result<Document>)
    ensures var (r, sent) := DocAt(s, resolve, parent, collection, id, mask, rpc);
      && |sent| <= s.maxRetries + 1
      && (resolve(parent, collection, id).Err? ==> r == Err(resolve(parent, collection, id).error) && sent == [])
      && (forall k :: 0 <= k < |sent| ==> sent[k].name == resolve(parent, collection, id).value)
      && (|sent| > 0 ==> sent[0].mask == mask)
      && (forall k :: 1 <= k < |sent| ==> sent[k].mask == None)
  {
    if resolve(parent, collection, id).Ok? {
      var path := resolve(parent, collection, id).value;
      FetchAttempts(s, path, mask, 0, rpc);
      FetchRequests(s, path, mask, 0, rpc);
    }
  }

  /** Not-found folding: a missing document gives `Ok(None)`, a decoded one
      `Ok(Some(obj))`, and an error that is not `DataNotFoundError` (a decode
      failure among them) is returned unchanged. */
  lemma IfExistsOutcomes<T>(s: Session, resolve: (string, string, string) -> Result<string>,
                            parent: string, collection: string, id: string, mask: Mask,
                            rpc: nat -> Result<Document>, decode: Document -> Result<T>)
    ensures var fetched := DocAt(s, resolve, parent, collection, id, mask, rpc).0;
      var o := FoldNotFound(Decoded(fetched, decode));
      && (fetched.Err? && fetched.error.DataNotFoundError? ==> o == Ok(None))
      && (fetched.Err? && !fetched.error.DataNotFoundError? ==> o == Err(fetched.error))
      && (fetched.Ok? && decode(fetched.value).Ok? ==> o == Ok(Some(decode(fetched.value).value)))
      && (fetched.Ok? && decode(fetched.value).Err? && decode(fetched.value).error.DeserializeError? ==>
            o == Err(decode(fetched.value).error))
  {
  }

  method GetDocAt(s: Session, resolve: (string, string, string) -> Result<string>,
                  parent: string, collection: string, id: string, mask: Mask, rpc: nat -> Result<Document>)
    returns (r: Result<Document>, sent: seq<GetRequest>)
    ensures (r, sent) == DocAt(s, resolve, parent, collection, id, mask, rpc)
  {
    match resolve(parent, collection, id)
    case Err(e) =>
      r, sent := Err(e), [];
    case Ok(path) =>
      r, sent := GetDocByPath(s, path, mask, 0, rpc);
  }

  /** `get_doc`: `get_doc_at` under the default documents path. */
  method GetDoc(s: Session, resolve: (string, string, string) -> Result<string>,
                collection: string, id: string, mask: Mask, rpc: nat -> Result<Document>)
    returns (r: Result<Document>, sent: seq<GetRequest>)
    ensures (r, sent) == DocAt(s, resolve, s.documentsPath, collection, id, mask, rpc)
  {
    r, sent := GetDocAt(s, resolve, s.documentsPath, collection, id, mask, rpc);
  }

  method GetObjAtReturnFields<T>(s: Session, resolve: (string, string, string) -> Result<string>,
                                 parent: string, collection: string, id: string, mask: Mask,
                                 rpc: nat -> Result<Document>, decode: Document -> Result<T>)
    returns (r: Result<T>, sent: seq<GetRequest>)
    ensures r == Decoded(DocAt(s, resolve, parent, collection, id, mask, rpc).0, decode)
    ensures sent == DocAt(s, resolve, parent, collection, id, mask, rpc).1
  {
    var fetched;
    fetched, sent := GetDocAt(s, resolve, parent, collection, id, mask, rpc);
    match fetched
    case Err(e) =>
      r := Err(e);
    case Ok(doc) =>
      r := decode(doc);
  }

  /** `get_obj_at` always asks for the whole document. */
  method GetObjAt<T>(s: Session, resolve: (string, string, string) -> Result<string>,
                     parent: string, collection: string, id: string,
                     rpc: nat -> Result<Document>, decode: Document -> Result<T>)
    returns (r: Result<T>, sent: seq<GetRequest>)
    ensures r == Decoded(DocAt(s, resolve, parent, collection, id, None, rpc).0, decode)
    ensures sent == DocAt(s, resolve, parent, collection, id, None, rpc).1
    ensures forall k :: 0 <= k < |sent| ==> sent[k].mask == None
  {
    var fetched;
    fetched, sent := GetDocAt(s, resolve, parent, collection, id, None, rpc);
    DocAtRequests(s, resolve, parent, collection, id, None, rpc);
    match fetched
    case Err(e) =>
      r := Err(e);
    case Ok(doc) =>
      r := decode(doc);
  }

  method GetObj<T>(s: Session, resolve: (string, string, string) -> Result<string>,
                   collection: string, id: string,
                   rpc: nat -> Result<Document>, decode: Document -> Result<T>)
    returns (r: Result<T>, sent: seq<GetRequest>)
    ensures r == Decoded(DocAt(s, resolve, s.documentsPath, collection, id, None, rpc).0, decode)
    ensures sent == DocAt(s, resolve, s.documentsPath, collection, id, None, rpc).1
  {
    r, sent := GetObjAt(s, resolve, s.documentsPath, collection, id, rpc, decode);
  }

  method GetObjReturnFields<T>(s: Session, resolve: (string, string, string) -> Result<string>,
                               collection: string, id: string, mask: Mask,
                               rpc: nat -> Result<Document>, decode: Document -> Result<T>)
    returns (r: Result<T>, sent: seq<GetRequest>)
    ensures r == Decoded(DocAt(s, resolve, s.documentsPath, collection, id, mask, rpc).0, decode)
    ensures sent == DocAt(s, resolve, s.documentsPath, collection, id, mask, rpc).1
  {
    r, sent := GetObjAtReturnFields(s, resolve, s.documentsPath, collection, id, mask, rpc, decode);
  }

  method GetObjAtIfExists<T>(s: Session, resolve: (string, string, string) -> Result<string>,
                             parent: string, collection: string, id: string, mask: Mask,
                             rpc: nat -> Result<Document>, decode: Document -> Result<T>)
    returns (r: Result<Option<T>>, sent: seq<GetRequest>)
    ensures r == FoldNotFound(Decoded(DocAt(s, resolve, parent, collection, id, mask, rpc).0, decode))
    ensures sent == DocAt(s, resolve, parent, collection, id, mask, rpc).1
  {
    var obj;
    obj, sent := GetObjAtReturnFields(s, resolve, parent, collection, id, mask, rpc, decode);
    match obj
    case Ok(o) =>
      r := Ok(Some(o));
    case Err(e) =>
      r := if e.DataNotFoundError? then Ok(None) else Err(e);
  }

  method GetObjIfExists<T>(s: Session, resolve: (string, string, string) -> Result<string>,
                           collection: string, id: string, mask: Mask,
                           rpc: nat -> Result<Document>, decode: Document -> Result<T>)
    returns (r: Result<Option<T>>, sent: seq<GetRequest>)
    ensures r == FoldNotFound(Decoded(DocAt(s, resolve, s.documentsPath, collection, id, mask, rpc).0, decode))
    ensures sent == DocAt(s, resolve, s.documentsPath, collection, id, mask, rpc).1
  {
    r, sent := GetObjAtIfExists(s, resolve, s.documentsPath, collection, id, mask, rpc, decode);
  }
}
