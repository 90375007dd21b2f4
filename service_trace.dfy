/** The backend interface as data: one `Call` per `ServiceClient` operation
    and one `Reply` per result shape, so that sequences of calls against the
    null backend can be stated and reasoned about. Each call is served by the
    corresponding function of OwnEngineClient; the context is threaded from
    call to call the way a shared `&self` is, and since every operation only
    borrows it, nothing an earlier call did can reach a later one. */
module ServiceTrace {
  import opened Responses
  import opened Entities
  import Client = OwnEngineClient

  datatype Call =
    | GetAllClusters
    | GetCluster(clusterId: string)
    | CreateCluster(clusterId: string)
    | DeleteCluster(clusterId: string)
    | GetAllBuckets
    | GetBucket(bucketId: string)
    | DeleteBucket(bucketId: string)
    | CreateBucket(form: BucketForm)
    | GetDocument(bucketId: string, docId: string)
    | CreateDocument(doc: Document)
    | UpdateDocument(doc: Document)
    | DeleteDocument(bucketId: string, docId: string)
    | SearchFromAll(params: SearchParameters)
    | SearchFromTarget(bucketId: string, params: SearchParameters)
    | SimilarFromAll(params: SearchParameters)
    | SimilarFromTarget(bucketId: string, params: SearchParameters)

  /** The sixteen operations, without their arguments. */
  datatype Operation =
    | OpGetAllClusters | OpGetCluster | OpCreateCluster | OpDeleteCluster
    | OpGetAllBuckets | OpGetBucket | OpDeleteBucket | OpCreateBucket
    | OpGetDocument | OpCreateDocument | OpUpdateDocument | OpDeleteDocument
    | OpSearchFromAll | OpSearchFromTarget | OpSimilarFromAll | OpSimilarFromTarget

  function OperationOf(c: Call): Operation {
    match c
    case GetAllClusters => OpGetAllClusters
    case GetCluster(_) => OpGetCluster
    case CreateCluster(_) => OpCreateCluster
    case DeleteCluster(_) => OpDeleteCluster
    case GetAllBuckets => OpGetAllBuckets
    case GetBucket(_) => OpGetBucket
    case DeleteBucket(_) => OpDeleteBucket
    case CreateBucket(_) => OpCreateBucket
    case GetDocument(_, _) => OpGetDocument
    case CreateDocument(_) => OpCreateDocument
    case UpdateDocument(_) => OpUpdateDocument
    case DeleteDocument(_, _) => OpDeleteDocument
    case SearchFromAll(_) => OpSearchFromAll
    case SearchFromTarget(_, _) => OpSearchFromTarget
    case SimilarFromAll(_) => OpSimilarFromAll
    case SimilarFromTarget(_, _) => OpSimilarFromTarget
  }

  /** The operations that change stored data in a real backend. */
  predicate IsWrite(c: Call) {
    c.CreateCluster? || c.DeleteCluster? || c.CreateBucket? || c.DeleteBucket?
    || c.CreateDocument? || c.UpdateDocument? || c.DeleteDocument?
  }

  /** The full-text and similarity searches. */
  predicate IsSearch(c: Call) {
    c.SearchFromAll? || c.SearchFromTarget? || c.SimilarFromAll? || c.SimilarFromTarget?
  }

  datatype Reply =
    | ClusterList(clusters: WebResponse<seq<Cluster>>)
    | ClusterItem(cluster: WebResponse<Cluster>)
    | BucketList(buckets: WebResponse<seq<Bucket>>)
    | BucketItem(bucket: WebResponse<Bucket>)
    | DocumentItem(document: WebResponse<Document>)
    | DocumentList(documents: WebResponse<seq<Document>>)
    | Ack(response: HttpResponse)

  /** True of a reply that took the error path. */
  predicate IsFailure(r: Reply) {
    match r
    case ClusterList(w) => w.Err?
    case ClusterItem(w) => w.Err?
    case BucketList(w) => w.Err?
    case BucketItem(w) => w.Err?
    case DocumentItem(w) => w.Err?
    case DocumentList(w) => w.Err?
    case Ack(h) => h.ErrResponse?
  }

  /** Dispatches one call to the null backend. */
  function Serve(cx: Client.OtherContext, c: Call): (r: Reply)
    ensures !IsFailure(r)
    ensures IsWrite(c) ==> r == Ack(OkAck)
    ensures IsSearch(c) ==> r == DocumentList(Ok([]))
    ensures c.GetAllClusters? ==> r == ClusterList(Ok([]))
    ensures c.GetAllBuckets? ==> r == BucketList(Ok([]))
    ensures c.GetCluster? ==> r == ClusterItem(Ok(DefaultCluster))
    ensures c.GetBucket? ==> r == BucketItem(Ok(DefaultBucket))
    ensures c.GetDocument? ==> r == DocumentItem(Ok(DefaultDocument))
  {
    match c
    case GetAllClusters => ClusterList(Client.GetAllClusters(cx))
    case GetCluster(id) => ClusterItem(Client.GetCluster(cx, id))
    case CreateCluster(id) => Ack(Client.CreateCluster(cx, id))
    case DeleteCluster(id) => Ack(Client.DeleteCluster(cx, id))
    case GetAllBuckets => BucketList(Client.GetAllBuckets(cx))
    case GetBucket(id) => BucketItem(Client.GetBucket(cx, id))
    case DeleteBucket(id) => Ack(Client.DeleteBucket(cx, id))
    case CreateBucket(form) => Ack(Client.CreateBucket(cx, form))
    case GetDocument(b, id) => DocumentItem(Client.GetDocument(cx, b, id))
    case CreateDocument(d) => Ack(Client.CreateDocument(cx, d))
    case UpdateDocument(d) => Ack(Client.UpdateDocument(cx, d))
    case DeleteDocument(b, id) => Ack(Client.DeleteDocument(cx, b, id))
    case SearchFromAll(p) => DocumentList(Client.SearchFromAll(cx, p))
    case SearchFromTarget(b, p) => DocumentList(Client.SearchFromTarget(cx, b, p))
    case SimilarFromAll(p) => DocumentList(Client.SimilarFromAll(cx, p))
    case SimilarFromTarget(b, p) => DocumentList(Client.SimilarFromTarget(cx, b, p))
  }

  /** What one call leaves behind: the context for the next call and the reply. */
  datatype Transition = Transition(context: Client.OtherContext, reply: Reply)

  /** One call: the context is only borrowed, so it is passed on as it was. */
  function Step(cx: Client.OtherContext, c: Call): Transition {
    Transition(cx, Serve(cx, c))
  }

  datatype Outcome = Outcome(context: Client.OtherContext, replies: seq<Reply>)

  /** A sequence of calls in order, each against the context the previous
      one left; one reply per call. */
  function Run(cx: Client.OtherContext, calls: seq<Call>): (o: Outcome)
    ensures |o.replies| == |calls|
    decreases |calls|
  {
    if calls == [] then Outcome(cx, [])
    else
      var t := Step(cx, calls[0]);
      var rest := Run(t.context, calls[1..]);
      Outcome(rest.context, [t.reply] + rest.replies)
  }

  // ---------------------------------------------------------------------------
  // Properties of the null backend

  /** Independence from arguments and context: two calls of the same
      operation get the same reply, whatever identifiers, records, search
      parameters or context they carry. */
  lemma ServeIgnoresArguments(cx1: Client.OtherContext, cx2: Client.OtherContext, c1: Call, c2: Call)
    requires OperationOf(c1) == OperationOf(c2)
    ensures Serve(cx1, c1) == Serve(cx2, c2)
  {
  }

  /** Statelessness: after any sequence of calls the context is the one the
      run started with, and every call gets the reply it would get as the
      first call. */
  lemma {:induction false} RunIsHistoryFree(cx: Client.OtherContext, calls: seq<Call>)
    ensures Run(cx, calls).context == cx
    ensures forall i :: 0 <= i < |calls| ==> Run(cx, calls).replies[i] == Serve(cx, calls[i])
    decreases |calls|
  {
    if calls != [] {
      RunIsHistoryFree(cx, calls[1..]);
      var o := Run(cx, calls);
      var rest := Run(cx, calls[1..]);
      assert o.replies == [Serve(cx, calls[0])] + rest.replies;
      forall i | 0 <= i < |calls|
        ensures o.replies[i] == Serve(cx, calls[i])
      {
        if i > 0 {
          assert o.replies[i] == rest.replies[i - 1];
          assert calls[1..][i - 1] == calls[i];
        }
      }
    }
  }

  /** Totality: no call in any sequence of calls takes the error path. */
  lemma RunNeverFails(cx: Client.OtherContext, calls: seq<Call>)
    ensures forall i :: 0 <= i < |calls| ==> !IsFailure(Run(cx, calls).replies[i])
  {
    RunIsHistoryFree(cx, calls);
  }

  /** A document read after any history, writes included, returns the
      default document. */
  lemma ReadAfterAnyHistory(cx: Client.OtherContext, history: seq<Call>, bucketId: string, docId: string)
    ensures Run(cx, history + [GetDocument(bucketId, docId)]).replies[|history|]
            == DocumentItem(Ok(DefaultDocument))
  {
    var read := GetDocument(bucketId, docId);
    var calls := history + [read];
    RunIsHistoryFree(cx, calls);
    assert calls[|history|] == read;
    assert Run(cx, calls).replies[|history|] == Serve(cx, read);
  }

  /** Writing a document is not observed: after creating or updating `doc`,
      reading any key still gives the default document, never `doc` unless
      `doc` is the default itself. */
  lemma WriteThenReadIsDefault(cx: Client.OtherContext, write: Call, bucketId: string, docId: string)
    requires write.CreateDocument? || write.UpdateDocument?
    ensures Run(cx, [write, GetDocument(bucketId, docId)]).replies[1] == DocumentItem(Ok(DefaultDocument))
    ensures write.doc != DefaultDocument
            ==> Run(cx, [write, GetDocument(bucketId, docId)]).replies[1] != DocumentItem(Ok(write.doc))
  {
    RunIsHistoryFree(cx, [write, GetDocument(bucketId, docId)]);
  }

  /** Searches stay empty after any history. */
  lemma SearchAfterAnyHistory(cx: Client.OtherContext, history: seq<Call>, search: Call)
    requires IsSearch(search)
    ensures Run(cx, history + [search]).replies[|history|] == DocumentList(Ok([]))
  {
    var calls := history + [search];
    RunIsHistoryFree(cx, calls);
    assert calls[|history|] == search;
    assert Run(cx, calls).replies[|history|] == Serve(cx, search);
  }

  /** Idempotent delete: deleting a document twice in a row gives the same
      acknowledgement twice, the same acknowledgement as deleting it once,
      and the same replies to every later call. */
  lemma DeleteIsIdempotent(cx: Client.OtherContext, history: seq<Call>, bucketId: string, docId: string, future: seq<Call>)
    ensures var del := DeleteDocument(bucketId, docId);
            var once := Run(cx, history + [del] + future);
            var twice := Run(cx, history + [del, del] + future);
            && once.replies[|history|] == Ack(OkAck)
            && twice.replies[|history|] == Ack(OkAck)
            && twice.replies[|history| + 1] == Ack(OkAck)
            && once.replies[|history| + 1..] == twice.replies[|history| + 2..]
            && once.context == twice.context
  {
    var del := DeleteDocument(bucketId, docId);
    var c1, c2 := history + [del] + future, history + [del, del] + future;
    RunIsHistoryFree(cx, c1);
    RunIsHistoryFree(cx, c2);
    var once, twice := Run(cx, c1), Run(cx, c2);
    assert c1[|history|] == del && c2[|history|] == del && c2[|history| + 1] == del;
    var later1, later2 := once.replies[|history| + 1..], twice.replies[|history| + 2..];
    forall j | 0 <= j < |future|
      ensures later1[j] == later2[j]
    {
      assert c1[|history| + 1 + j] == future[j];
      assert c2[|history| + 2 + j] == future[j];
    }
  }
}
