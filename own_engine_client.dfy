/** The null backend: `impl ServiceClient for OtherContext` in
    src/searcher/own_engine/client.rs. It satisfies the whole backend
    interface without delegating anywhere: lists are empty, single reads give
    the record's default value, writes are acknowledged with "Ok", and no
    operation takes the error path. Every operation borrows the context
    immutably and reads none of its fields. */
module OwnEngineClient {
  import opened Responses
  import opened Entities

  /** The context the backend is implemented for; its definition is not part
      of this model, and no operation reads it. */
  type OtherContext

  function GetAllClusters(cx: OtherContext): (r: WebResponse<seq<Cluster>>)
    ensures r.Ok? && r.payload == []
  {
    Ok([])
  }

  function GetCluster(cx: OtherContext, clusterId: string): (r: WebResponse<Cluster>)
    ensures r.Ok? && r.payload == DefaultCluster
  {
    Ok(DefaultCluster)
  }

  function CreateCluster(cx: OtherContext, clusterId: string): (r: HttpResponse)
    ensures r == OkResponse("Ok")
  {
    OkAck
  }

  function DeleteCluster(cx: OtherContext, clusterId: string): (r: HttpResponse)
    ensures r == OkResponse("Ok")
  {
    OkAck
  }

  function GetAllBuckets(cx: OtherContext): (r: WebResponse<seq<Bucket>>)
    ensures r.Ok? && r.payload == []
  {
    Ok([])
  }

  function GetBucket(cx: OtherContext, bucketId: string): (r: WebResponse<Bucket>)
    ensures r.Ok? && r.payload == DefaultBucket
  {
    Ok(DefaultBucket)
  }

  function DeleteBucket(cx: OtherContext, bucketId: string): (r: HttpResponse)
    ensures r == OkResponse("Ok")
  {
    OkAck
  }

  function CreateBucket(cx: OtherContext, form: BucketForm): (r: HttpResponse)
    ensures r == OkResponse("Ok")
  {
    OkAck
  }

  function GetDocument(cx: OtherContext, bucketId: string, docId: string): (r: WebResponse<Document>)
    ensures r.Ok? && r.payload == DefaultDocument
  {
    Ok(DefaultDocument)
  }

  function CreateDocument(cx: OtherContext, doc: Document): (r: HttpResponse)
    ensures r == OkResponse("Ok")
  {
    OkAck
  }

  function UpdateDocument(cx: OtherContext, doc: Document): (r: HttpResponse)
    ensures r == OkResponse("Ok")
  {
    OkAck
  }

  function DeleteDocument(cx: OtherContext, bucketId: string, docId: string): (r: HttpResponse)
    ensures r == OkResponse("Ok")
  {
    OkAck
  }

  function SearchFromAll(cx: OtherContext, params: SearchParameters): (r: WebResponse<seq<Document>>)
    ensures r.Ok? && r.payload == []
  {
    Ok([])
  }

  function SearchFromTarget(cx: OtherContext, bucketId: string, params: SearchParameters): (r: WebResponse<seq<Document>>)
    ensures r.Ok? && r.payload == []
  {
    Ok([])
  }

  function SimilarFromAll(cx: OtherContext, params: SearchParameters): (r: WebResponse<seq<Document>>)
    ensures r.Ok? && r.payload == []
  {
    Ok([])
  }

  function SimilarFromTarget(cx: OtherContext, bucketId: string, params: SearchParameters): (r: WebResponse<seq<Document>>)
    ensures r.Ok? && r.payload == []
  {
    Ok([])
  }
}
