/** The multi-field match query the searcher sends for a free-text search:
    `QueryString` and `MultiMatchQuery` of src/wrappers/search_query.rs, and
    the JSON body their derived serialiser produces. */
module SearchQuery {
  import Json

  /** The operator combining the per-field matches: a document matches when
      the text matches in any one of the fields. */
  const OrOperator: string := "or"

  /** The fields searched, document body first, then the document path. */
  const SearchedFields: seq<string> := ["entity_data", "document_path"]

  datatype QueryString = QueryString(query: string, operator: string, fields: seq<string>)

  datatype MultiMatchQuery = MultiMatchQuery(multiMatch: QueryString)

  /** `QueryString::new`: the text verbatim, the fixed operator and fields.
      Total: every input, the empty string included, gives a query. */
  function NewQueryString(value: string): (q: QueryString)
    ensures q.query == value
    ensures q.operator == "or"
    ensures q.fields == ["entity_data", "document_path"] && |q.fields| == 2
  {
    QueryString(value, OrOperator, SearchedFields)
  }

  /** `MultiMatchQuery::new`: the query string of the same text under the
      single `multi_match` field. */
  function NewMultiMatchQuery(value: string): (m: MultiMatchQuery)
    ensures m.multiMatch == NewQueryString(value)
    ensures m.multiMatch.query == value
  {
    MultiMatchQuery(NewQueryString(value))
  }

  // ---------------------------------------------------------------------------
  // Serialised shape

  /** The value serde builds from a QueryString: its fields in declaration
      order, `query`, `operator`, `fields`. */
  function QueryStringToJson(q: QueryString): (v: Json.Value)
    ensures v.JObject? && Json.Keys(v.members) == ["query", "operator", "fields"]
  {
    Json.JObject([
      Json.Member("query", Json.JString(q.query)),
      Json.Member("operator", Json.JString(q.operator)),
      Json.Member("fields", Json.JArray(Json.JStrings(q.fields)))])
  }

  /** The value serde builds from a MultiMatchQuery: one key, `multi_match`. */
  function MultiMatchToJson(m: MultiMatchQuery): (v: Json.Value)
    ensures v.JObject? && Json.Keys(v.members) == ["multi_match"]
    ensures v.members[0].value == QueryStringToJson(m.multiMatch)
    ensures Json.Keys(v.members[0].value.members) == ["query", "operator", "fields"]
  {
    Json.JObject([Json.Member("multi_match", QueryStringToJson(m.multiMatch))])
  }

  /** Reads a QueryString back from a value of exactly the serialised shape:
      an object with the keys `query`, `operator`, `fields` in this order,
      two strings and an array of strings. */
  function QueryStringFromJson(v: Json.Value): (r: Json.Option<QueryString>)
    ensures r.Some? ==> v.JObject? && Json.Keys(v.members) == ["query", "operator", "fields"]
  {
    match v
    case JObject(ms) =>
      if |ms| == 3 && ms[0].key == "query" && ms[0].value.JString?
         && ms[1].key == "operator" && ms[1].value.JString?
         && ms[2].key == "fields" && ms[2].value.JArray?
      then
        match Json.StringsOf(ms[2].value.items)
        case None => Json.None
        case Some(fs) => Json.Some(QueryString(ms[0].value.text, ms[1].value.text, fs))
      else Json.None
    case _ => Json.None
  }

  /** Reads a MultiMatchQuery back from an object whose one key is `multi_match`. */
  function MultiMatchFromJson(v: Json.Value): (r: Json.Option<MultiMatchQuery>)
    ensures r.Some? ==> v.JObject? && Json.Keys(v.members) == ["multi_match"]
  {
    match v
    case JObject(ms) =>
      if |ms| == 1 && ms[0].key == "multi_match" then
        match QueryStringFromJson(ms[0].value)
        case None => Json.None
        case Some(q) => Json.Some(MultiMatchQuery(q))
      else Json.None
    case _ => Json.None
  }

  /** Serialising loses nothing: every QueryString, whatever its fields,
      is read back from its JSON value. */
  lemma QueryStringJsonRoundTrip(q: QueryString)
    ensures QueryStringFromJson(QueryStringToJson(q)) == Json.Some(q)
  {
    Json.StringsOfJStrings(q.fields);
  }

  lemma MultiMatchJsonRoundTrip(m: MultiMatchQuery)
    ensures MultiMatchFromJson(MultiMatchToJson(m)) == Json.Some(m)
  {
    QueryStringJsonRoundTrip(m.multiMatch);
  }

  /** Queries built from two texts agree in operator and fields and differ
      at most in the text; they are equal exactly when the texts are. */
  lemma OnlyTextVaries(a: string, b: string)
    ensures NewMultiMatchQuery(a).multiMatch.operator == NewMultiMatchQuery(b).multiMatch.operator
    ensures NewMultiMatchQuery(a).multiMatch.fields == NewMultiMatchQuery(b).multiMatch.fields
    ensures NewMultiMatchQuery(a) == NewMultiMatchQuery(b) <==> a == b
  {
  }

  // ---------------------------------------------------------------------------
  // The JSON text of the query body

  /** The compact JSON text of the query for `value`. */
  function Body(value: string): string {
    Json.Render(MultiMatchToJson(NewMultiMatchQuery(value)))
  }

  lemma CancelLeft(p: string, x: string, y: string)
    requires p + x == p + y
    ensures x == y
  {
    assert x == (p + x)[|p|..];
  }

  lemma CancelRight(x: string, y: string, s: string)
    requires x + s == y + s
    ensures x == y
  {
    assert |x| == |y|;
    assert x == (x + s)[..|x|];
  }

  /** Two query-string objects that differ only in the text render to the
      same JSON text only when the texts are equal. */
  lemma QueryStringTextInjective(a: string, b: string)
    requires Json.Render(QueryStringToJson(NewQueryString(a)))
             == Json.Render(QueryStringToJson(NewQueryString(b)))
    ensures a == b
  {
    var ma, mb := QueryStringToJson(NewQueryString(a)).members, QueryStringToJson(NewQueryString(b)).members;
    assert ma[1..] == mb[1..];
    var rest := Json.RenderMembers(ma[1..]);
    var key := Json.Quoted("query") + ":";
    var ra, rb := Json.RenderMembers(ma), Json.RenderMembers(mb);
    assert ("{" + ra) + "}" == ("{" + rb) + "}";
    CancelRight("{" + ra, "{" + rb, "}");
    CancelLeft("{", ra, rb);
    assert ma[0] == Json.Member("query", Json.JString(a)) && mb[0] == Json.Member("query", Json.JString(b));
    assert ra == ((Json.Quoted(ma[0].key) + ":" + Json.Render(ma[0].value)) + ",") + rest;
    assert rb == ((Json.Quoted(mb[0].key) + ":" + Json.Render(mb[0].value)) + ",") + rest;
    CancelRight((key + Json.Quoted(a)) + ",", (key + Json.Quoted(b)) + ",", rest);
    CancelRight(key + Json.Quoted(a), key + Json.Quoted(b), ",");
    CancelLeft(key, Json.Quoted(a), Json.Quoted(b));
    CancelRight("\"" + Json.Escape(a), "\"" + Json.Escape(b), "\"");
    CancelLeft("\"", Json.Escape(a), Json.Escape(b));
    Json.EscapeInjective(a, b);
  }

  /** The body is byte-for-byte determined by the text and determines it:
      two texts give the same body exactly when they are equal. */
  lemma BodyDeterminesText(a: string, b: string)
    ensures Body(a) == Body(b) <==> a == b
  {
    if Body(a) == Body(b) {
      var qa, qb := QueryStringToJson(NewQueryString(a)), QueryStringToJson(NewQueryString(b));
      var ma, mb := MultiMatchToJson(NewMultiMatchQuery(a)).members, MultiMatchToJson(NewMultiMatchQuery(b)).members;
      var key := Json.Quoted("multi_match") + ":";
      assert Json.RenderMembers(ma) == key + Json.Render(qa);
      assert Json.RenderMembers(mb) == key + Json.Render(qb);
      assert ("{" + (key + Json.Render(qa))) + "}" == ("{" + (key + Json.Render(qb))) + "}";
      CancelRight("{" + (key + Json.Render(qa)), "{" + (key + Json.Render(qb)), "}");
      CancelLeft("{", key + Json.Render(qa), key + Json.Render(qb));
      CancelLeft(key, Json.Render(qa), Json.Render(qb));
      QueryStringTextInjective(a, b);
    }
  }
}
