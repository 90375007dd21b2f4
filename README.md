# docsearcher core in Dafny

This project models the two pieces of the docsearcher search service that hold logic of their own:

- **The search query builder** (`src/wrappers/search_query.rs`). `QueryString::new` turns a raw query text into a multi-field match query. The query has the text verbatim, the operator `"or"` and the fields `entity_data` and `document_path`, in that order. `MultiMatchQuery::new` wraps it under the single key `multi_match`. Both structs derive `Serialize`, so their JSON shape follows the struct declaration order. The model holds:
  - the two structs as datatypes;
  - the JSON value serde builds from them, with objects as ordered member lists;
  - a reference decoder for that value;
  - the compact JSON text of the body. Strings in that text are escaped as serde_json does it, following section 7 of RFC 8259.
- **The null backend** (`src/searcher/own_engine/client.rs`). This is the `ServiceClient` implementation for `OtherContext`. It serves the whole backend interface without delegating anywhere:
  - list reads and searches return an empty list;
  - single reads return the record's default value;
  - every write returns the acknowledgement `ok_response("Ok")`;
  - no operation takes the error path.

  Each of the 16 operations is a function. The module `ServiceTrace` turns the interface into data (a `Call` per operation, a `Reply` per result shape). It runs sequences of calls against the backend, threading the context the way the shared `&self` is threaded. Statelessness, totality and idempotent delete are then proved over all call sequences.

Modules: `Json` (json.dfy), `SearchQuery` (search_query.dfy), `Responses` (responses.dfy), `Entities` (entities.dfy), `OwnEngineClient` (own_engine_client.dfy), `ServiceTrace` (service_trace.dfy).

The following have no definitions in the modelled files, so they are opaque types:
- the records `Cluster`, `Bucket`, `BucketForm`, `Document` and `SearchParameters` (in Entities);
- `OtherContext` (in OwnEngineClient).

The `Default` values `Cluster::default()`, `Bucket::default()` and `Document::default()` are opaque constants: one fixed value each, with no assumed fields. `WebResponse<web::Json<T>>` is `Ok(payload) | Err(code, message)`. `HttpResponse` is `OkResponse(message) | ErrResponse(code, message)`, and `SuccessfulResponse::ok_response("Ok")` is `OkResponse("Ok")`.

The null backend answers differently from a storing backend in three places, and the model follows the code:
- `get_cluster`, `get_bucket` and `get_document` never answer NotFound. They return the default record for every identifier.
- A document is not read back after it is written. After `create_document(d)` or `update_document(d)` a read returns the default document, not `d` (`ServiceTrace.WriteThenReadIsDefault`). Create-then-read round trips and update overwrites belong to the Elasticsearch backend, which is not part of this model.
- List reads and the four searches stay empty after any write (`ServiceTrace.SearchAfterAnyHistory`, `ServiceTrace.RunIsHistoryFree`). Listing created clusters and buckets, and finding written documents, belong to the Elasticsearch backend.

## Model

| member | source | states |
|---|---|---|
| SearchQuery.NewQueryString | src/wrappers/search_query.rs:10-20 | for every input, the empty string included, `query` is the input verbatim, `operator` is `"or"` and `fields` is exactly `["entity_data", "document_path"]` (two fields, in this order) |
| SearchQuery.NewMultiMatchQuery | src/wrappers/search_query.rs:28-33 | `multi_match` is `QueryString::new` of the same text, and its query is that text |
| SearchQuery.OnlyTextVaries | src/wrappers/search_query.rs:11-33 | queries built from any two texts have the same operator and the same fields; they are equal exactly when the texts are equal (determinism and injectivity) |
| SearchQuery.QueryStringToJson | src/wrappers/search_query.rs:3-8 | the serialised QueryString is an object whose keys are `query`, `operator`, `fields`, in declaration order |
| SearchQuery.MultiMatchToJson | src/wrappers/search_query.rs:23-26 | the serialised MultiMatchQuery is an object with the single key `multi_match`; its value is the serialised QueryString, with keys `query`, `operator`, `fields` |
| SearchQuery.QueryStringFromJson | src/wrappers/search_query.rs:3-8 | not a source function (the struct derives only `Serialize`): the reference decoder that is the round-trip partner of the serialised shape; it accepts only objects with the keys `query`, `operator`, `fields` in this order |
| SearchQuery.MultiMatchFromJson | src/wrappers/search_query.rs:23-26 | not a source function (the struct derives only `Serialize`): the reference decoder that is the round-trip partner of the serialised shape; it accepts only objects whose one key is `multi_match` |
| SearchQuery.QueryStringJsonRoundTrip | src/wrappers/search_query.rs:3-8 | every QueryString, whatever its fields, is read back unchanged from its serialised value |
| SearchQuery.MultiMatchJsonRoundTrip | src/wrappers/search_query.rs:23-26 | every MultiMatchQuery is read back unchanged from its serialised value |
| SearchQuery.QueryStringTextInjective | src/wrappers/search_query.rs:3-19 | two query-string objects built from different texts have different JSON texts |
| SearchQuery.BodyDeterminesText | src/wrappers/search_query.rs:3-33 | the JSON text of `MultiMatchQuery::new(a)` equals that of `MultiMatchQuery::new(b)` exactly when `a == b`: the body is byte-identical for the same text and tells different texts apart |
| Json.StringsOfJStrings | src/wrappers/search_query.rs:7 | a `Vec<String>` serialised as an array of strings is read back unchanged |
| Json.EscapeChar | src/wrappers/search_query.rs:5 | serde_json's string writer, applied to the `query` field declared here: a character of the query text is written as is exactly when it is not a quotation mark, a reverse solidus or a character below U+0020 |
| Json.UnescapeEscape | src/wrappers/search_query.rs:5 | serde_json's string writer, applied to the `query` field declared here: escaping the query text loses nothing: the body of the string literal reads back as the text, for every text |
| Json.EscapeInjective | src/wrappers/search_query.rs:5 | serde_json's string writer, applied to the `query` field declared here: two texts have the same escaped form exactly when they are equal |
| OwnEngineClient.GetAllClusters | src/searcher/own_engine/client.rs:13-15 | always `Ok` with the empty list |
| OwnEngineClient.GetCluster | src/searcher/own_engine/client.rs:17-19 | always `Ok` with the default cluster, for every identifier |
| OwnEngineClient.CreateCluster | src/searcher/own_engine/client.rs:21-23 | always the acknowledgement `OkResponse("Ok")` |
| OwnEngineClient.DeleteCluster | src/searcher/own_engine/client.rs:25-27 | always the acknowledgement `OkResponse("Ok")` |
| OwnEngineClient.GetAllBuckets | src/searcher/own_engine/client.rs:29-31 | always `Ok` with the empty list |
| OwnEngineClient.GetBucket | src/searcher/own_engine/client.rs:33-35 | always `Ok` with the default bucket, for every identifier |
| OwnEngineClient.DeleteBucket | src/searcher/own_engine/client.rs:37-39 | always the acknowledgement `OkResponse("Ok")` |
| OwnEngineClient.CreateBucket | src/searcher/own_engine/client.rs:41-43 | always the acknowledgement `OkResponse("Ok")`, for every form |
| OwnEngineClient.GetDocument | src/searcher/own_engine/client.rs:45-51 | always `Ok` with the default document, for every bucket and document identifier |
| OwnEngineClient.CreateDocument | src/searcher/own_engine/client.rs:53-55 | always the acknowledgement `OkResponse("Ok")`, for every document |
| OwnEngineClient.UpdateDocument | src/searcher/own_engine/client.rs:57-59 | always the acknowledgement `OkResponse("Ok")`, for every document |
| OwnEngineClient.DeleteDocument | src/searcher/own_engine/client.rs:61-63 | always the acknowledgement `OkResponse("Ok")` |
| OwnEngineClient.SearchFromAll | src/searcher/own_engine/client.rs:65-70 | always `Ok` with no documents, whatever the search parameters |
| OwnEngineClient.SearchFromTarget | src/searcher/own_engine/client.rs:72-78 | always `Ok` with no documents, whatever the bucket and parameters |
| OwnEngineClient.SimilarFromAll | src/searcher/own_engine/client.rs:80-85 | always `Ok` with no documents, whatever the search parameters |
| OwnEngineClient.SimilarFromTarget | src/searcher/own_engine/client.rs:87-93 | always `Ok` with no documents, whatever the bucket and parameters |
| ServiceTrace.Serve | src/searcher/own_engine/client.rs:13-93 | no call takes the error path; every write is answered with `OkResponse("Ok")`; every search is answered with an empty document list |
| ServiceTrace.Run | src/searcher/own_engine/client.rs:12-93 | a sequence of calls gets exactly one reply per call |
| ServiceTrace.ServeIgnoresArguments | src/searcher/own_engine/client.rs:13-93 | two calls of the same operation get the same reply, whatever their arguments and whatever the context |
| ServiceTrace.RunIsHistoryFree | src/searcher/own_engine/client.rs:12-93 | each call's reply in any sequence of calls is the reply it would get as the first call; the context is unchanged at the end by definition, since `ServiceTrace.Step` passes it on as it was (modelling `&self`); this is not derived from the operations |
| ServiceTrace.RunNeverFails | src/searcher/own_engine/client.rs:13-93 | in every sequence of calls, no reply is an error |
| ServiceTrace.ReadAfterAnyHistory | src/searcher/own_engine/client.rs:45-51 | a document read after any history, writes included, returns the default document |
| ServiceTrace.WriteThenReadIsDefault | src/searcher/own_engine/client.rs:45-59 | after `create_document(d)` or `update_document(d)`, a read returns the default document, and so not `d` unless `d` is the default |
| ServiceTrace.SearchAfterAnyHistory | src/searcher/own_engine/client.rs:65-93 | each of the four searches returns an empty list after any history |
| ServiceTrace.DeleteIsIdempotent | src/searcher/own_engine/client.rs:61-63 | deleting a document twice in a row acknowledges both deletes as deleting it once does, and every later call gets the same reply and leaves the same context |

## Left out

- The route handlers of `src/endpoints/documents.rs` (lines 7-40): HTTP plumbing that unpacks JSON and path arguments and passes them unchanged to the client.
- The integration tests in `src/endpoints/documents.rs` (lines 42-282): they need a live Elasticsearch. Their round-trip, update and not-found assertions describe the Elasticsearch backend, which is not part of this model.
- `src/service.rs`: reading the environment, port parsing, CORS and logger configuration, and route registration are I/O and library configuration.
- The asynchronous execution (`async_trait`) and the actix `HttpResponse` and `web::Json` wrappers: results are modelled as values.
- The definitions of `Cluster`, `Bucket`, `BucketForm`, `Document`, `SearchParameters` and `OtherContext`, and their `Default` implementations, are not part of this model. They are represented by opaque types and opaque constants.
- The definitions of `SuccessfulResponse` and `WebResponse` are not part of this model. They are represented by the two-variant datatypes `Responses.WebResponse` and `Responses.HttpResponse` and the constant `Responses.OkAck`.
- The `ServiceClient` trait declaration and the Elasticsearch backend are not part of this model.
- The code that serialises the `MultiMatchQuery` body and sends it (the Elasticsearch backend) is not part of this model. The compact text behind `SearchQuery.Body` and `SearchQuery.BodyDeterminesText` assumes serde_json's compact writer: no white space, and strings escaped as `Json.EscapeChar` states.
- JSON rendering covers strings, arrays and objects only, the value kinds these structs produce. The reference decoder `Json.Unescape` does not read surrogate pairs written as two `\u` escapes; serde_json never writes them for these strings.
