/** `AzureSearchConnector` (src/azure_search_mcp/connector.py): the layer that
    turns each search method's arguments into one call of the Azure SDK's
    `SearchClient.search`, and re-raises any failure of that call as a
    `ValueError` whose prefix names the method.

    The SDK is not modelled: a `Backend` is any function from the client and
    the call to either the records the service returns or the message of the
    exception it raised. The request functions below say what arrives at the
    backend; the four search methods build it the way the source does (a dict
    literal holding `None` placeholders, the semantic keys added in place,
    then every `None` value dropped) and are proved to send exactly that. */
module Connector {
  import opened Common

  /** `AzureKeyCredential(api_key)`: an opaque key. */
  datatype Credential = AzureKeyCredential(key: string)

  /** The SDK's `SearchClient`, bound to one endpoint and one index. */
  datatype SearchClient = SearchClient(endpoint: string, indexName: string, credential: Credential)

  /** The connector's fields; `__init__` sets them once and nothing updates them. */
  datatype AzureSearchConnector = AzureSearchConnector(
    endpoint: string,
    credential: Credential,
    indexName: string,
    client: SearchClient)

  /** A connector whose client talks to the connector's own endpoint and
      index with the connector's own credential. */
  predicate Valid(c: AzureSearchConnector) {
    c.client == SearchClient(c.endpoint, c.indexName, c.credential)
  }

  /** One entry of `vector_queries`: the dict `{"vector", "fields", "k"}`. */
  datatype VectorQuery = VectorQuery(vector: Vector, fields: string, k: int)

  /** A value of the `search_options` dict; `PyNone` is Python's `None`. */
  datatype OptionValue =
    | PyNone
    | IntValue(n: int)
    | StrValue(s: string)
    | VectorQueries(queries: seq<VectorQuery>)

  type SearchOptions = map<string, OptionValue>

  /** One call `client.search(search_text=..., **kwargs)`. */
  datatype SearchCall = SearchCall(searchText: Option<string>, options: SearchOptions)

  /** What `client.search` and iterating over its results come to: the
      records in the service's order, or the message of the exception. */
  datatype BackendOutcome = Records(records: seq<Document>) | Failed(message: string)

  type Backend = (SearchClient, SearchCall) -> BackendOutcome

  const TextSearchFailed := "Search failed: "
  const VectorSearchFailed := "Vector search failed: "
  const HybridSearchFailed := "Hybrid search failed: "
  const QueryFailed := "Query failed: "

  /** The keyword arguments some search method may send. */
  const OptionKeys := {"top", "select", "filter", "vector_queries", "semantic_configuration_name", "query_type"}

  /** `AzureSearchConnector(endpoint, api_key, index_name)`. */
  function NewConnector(endpoint: string, apiKey: string, indexName: string): (c: AzureSearchConnector)
    ensures Valid(c)
    ensures c.endpoint == endpoint && c.indexName == indexName && c.credential.key == apiKey
  {
    var credential := AzureKeyCredential(apiKey);
    AzureSearchConnector(endpoint, credential, indexName, SearchClient(endpoint, indexName, credential))
  }

  /** `list_indexes`: only the connector's own index is reported. */
  function ListIndexes(c: AzureSearchConnector): (names: seq<string>)
    ensures |names| == 1 && names[0] == c.indexName
  {
    [c.indexName]
  }

  /** `_get_index_fields`: a fixed list, whatever the index holds. */
  function IndexFields(): (fields: seq<string>)
    ensures |fields| == 5
    ensures fields[0] == "id" && fields[1] == "content" && fields[2] == "title"
    ensures fields[3] == "category" && fields[4] == "url"
  {
    ["id", "content", "title", "category", "url"]
  }

  function JsonStrings(xs: seq<string>): (js: seq<Json>)
    ensures |js| == |xs|
    ensures forall i :: 0 <= i < |xs| ==> js[i] == JString(xs[i])
  {
    seq(|xs|, i requires 0 <= i < |xs| => JString(xs[i]))
  }

  /** `get_index_info(index_name)`: the name asked for and the fixed field
      list; the index itself is never consulted. */
  function GetIndexInfo(c: AzureSearchConnector, indexName: string): (info: Document)
    ensures info.Keys == {"name", "fields"}
    ensures info["name"] == JString(indexName)
    ensures info["fields"] == JArray(JsonStrings(IndexFields()))
  {
    map["name" := JString(indexName), "fields" := JArray(JsonStrings(IndexFields()))]
  }

  // ---------------------------------------------------------------------
  // What each search method sends

  /** The rules for `top`, `select` and `filter`, shared by all four methods. */
  predicate SendsCommonOptions(o: SearchOptions, limit: int, outputFields: Option<seq<string>>, filterExpr: Option<string>) {
    && "top" in o && o["top"] == IntValue(limit)
    && ("select" in o <==> TruthyList(outputFields))
    && (TruthyList(outputFields) ==> o["select"] == StrValue(Join(",", outputFields.value)))
    && ("filter" in o <==> filterExpr.Some?)
    && (filterExpr.Some? ==> o["filter"] == StrValue(filterExpr.value))
  }

  /** The semantic keys appear, both of them, exactly for a truthy configuration. */
  predicate SendsSemantic(o: SearchOptions, semanticConfiguration: Option<string>) {
    && ("semantic_configuration_name" in o <==> TruthyText(semanticConfiguration))
    && ("query_type" in o <==> TruthyText(semanticConfiguration))
    && (TruthyText(semanticConfiguration) ==>
          o["semantic_configuration_name"] == StrValue(semanticConfiguration.value)
          && o["query_type"] == StrValue("semantic"))
  }

  /** Exactly one vector query, over `vectorField`, asking for `limit` neighbours. */
  predicate SendsOneVectorQuery(o: SearchOptions, vector: Vector, vectorField: string, limit: int) {
    "vector_queries" in o && o["vector_queries"] == VectorQueries([VectorQuery(vector, vectorField, limit)])
  }

  /** No keyword argument outside the known ones, and none of them `None`. */
  predicate WellFormed(o: SearchOptions) {
    o.Keys <= OptionKeys && forall k :: k in o ==> o[k] != PyNone
  }

  function CommonOptions(limit: int, outputFields: Option<seq<string>>, filterExpr: Option<string>): SearchOptions {
    map["top" := IntValue(limit)]
    + (if TruthyList(outputFields) then map["select" := StrValue(Join(",", outputFields.value))] else map[])
    + (if filterExpr.Some? then map["filter" := StrValue(filterExpr.value)] else map[])
  }

  function SemanticOptions(semanticConfiguration: Option<string>): SearchOptions {
    if TruthyText(semanticConfiguration) then
      map["semantic_configuration_name" := StrValue(semanticConfiguration.value), "query_type" := StrValue("semantic")]
    else map[]
  }

  function VectorOptions(vector: Vector, vectorField: string, limit: int): SearchOptions {
    map["vector_queries" := VectorQueries([VectorQuery(vector, vectorField, limit)])]
  }

  /** The call `text_search` makes. */
  function TextSearchRequest(queryText: string, limit: int, outputFields: Option<seq<string>>,
                             filterExpr: Option<string>, semanticConfiguration: Option<string>): (call: SearchCall)
    ensures call.searchText == Some(queryText)
    ensures SendsCommonOptions(call.options, limit, outputFields, filterExpr)
    ensures SendsSemantic(call.options, semanticConfiguration)
    ensures "vector_queries" !in call.options
    ensures WellFormed(call.options)
  {
    SearchCall(Some(queryText), CommonOptions(limit, outputFields, filterExpr) + SemanticOptions(semanticConfiguration))
  }

  /** The call `vector_search` makes: no search text at all. */
  function VectorSearchRequest(vector: Vector, vectorField: string, limit: int, outputFields: Option<seq<string>>,
                               filterExpr: Option<string>, semanticConfiguration: Option<string>): (call: SearchCall)
    ensures call.searchText == None
    ensures SendsCommonOptions(call.options, limit, outputFields, filterExpr)
    ensures SendsSemantic(call.options, semanticConfiguration)
    ensures SendsOneVectorQuery(call.options, vector, vectorField, limit)
    ensures WellFormed(call.options)
  {
    SearchCall(None, CommonOptions(limit, outputFields, filterExpr) + VectorOptions(vector, vectorField, limit)
                     + SemanticOptions(semanticConfiguration))
  }

  /** The call `hybrid_search` makes: the text and the vector query together. */
  function HybridSearchRequest(queryText: string, vector: Vector, vectorField: string, limit: int,
                               outputFields: Option<seq<string>>, filterExpr: Option<string>,
                               semanticConfiguration: Option<string>): (call: SearchCall)
    ensures call.searchText == Some(queryText)
    ensures SendsCommonOptions(call.options, limit, outputFields, filterExpr)
    ensures SendsSemantic(call.options, semanticConfiguration)
    ensures SendsOneVectorQuery(call.options, vector, vectorField, limit)
    ensures WellFormed(call.options)
  {
    SearchCall(Some(queryText), CommonOptions(limit, outputFields, filterExpr) + VectorOptions(vector, vectorField, limit)
                                + SemanticOptions(semanticConfiguration))
  }

  /** The call `query` makes: every document (`"*"`) that passes the filter. */
  function QueryRequest(filterExpr: string, outputFields: Option<seq<string>>, limit: int): (call: SearchCall)
    ensures call.searchText == Some("*")
    ensures SendsCommonOptions(call.options, limit, outputFields, Some(filterExpr))
    ensures SendsSemantic(call.options, None)
    ensures "vector_queries" !in call.options
    ensures WellFormed(call.options)
  {
    SearchCall(Some("*"), CommonOptions(limit, outputFields, Some(filterExpr)))
  }

  /** `[dict(result) for result in results]` inside the method's `try`, and
      its `except`: records pass through unchanged and in order, and a
      failure becomes a `ValueError` with the method's prefix. */
  function Collect(failurePrefix: string, outcome: BackendOutcome): (r: Result<seq<Document>, PyError>)
    ensures r.Ok? <==> outcome.Records?
    ensures r.Ok? ==> |r.value| == |outcome.records|
    ensures r.Ok? ==> forall i :: 0 <= i < |r.value| ==> r.value[i] == outcome.records[i]
    ensures r.Err? ==> r.error.ValueError?
    ensures r.Err? ==> |r.error.message| == |failurePrefix| + |outcome.message|
    ensures r.Err? ==> r.error.message[..|failurePrefix|] == failurePrefix
    ensures r.Err? ==> r.error.message[|failurePrefix|..] == outcome.message
  {
    match outcome
    case Records(records) => Ok(records)
    case Failed(message) => Err(ValueError(failurePrefix + message))
  }

  // ---------------------------------------------------------------------
  // The search methods, building their options the way the source does

  /** `",".join(output_fields) if output_fields else None`. */
  function SelectValue(outputFields: Option<seq<string>>): OptionValue {
    if TruthyList(outputFields) then StrValue(Join(",", outputFields.value)) else PyNone
  }

  /** `filter_expr` as a dict value: `None` stays `None`. */
  function FilterValue(filterExpr: Option<string>): OptionValue {
    if filterExpr.Some? then StrValue(filterExpr.value) else PyNone
  }

  /** `{k: v for k, v in search_options.items() if v is not None}`. */
  function DropNone(searchOptions: SearchOptions): (kwargs: SearchOptions)
    ensures forall k :: k in kwargs <==> k in searchOptions && searchOptions[k] != PyNone
    ensures forall k :: k in kwargs ==> kwargs[k] == searchOptions[k]
  {
    map k | k in searchOptions && searchOptions[k] != PyNone :: searchOptions[k]
  }

  /** The three-key dict literal every search method starts from. */
  function OptionsLiteral(limit: int, outputFields: Option<seq<string>>, filterExpr: Option<string>): SearchOptions {
    map["top" := IntValue(limit), "select" := SelectValue(outputFields), "filter" := FilterValue(filterExpr)]
  }

  /** Dropping the `None` placeholders of the literal leaves the common
      options; keys added after it carry no `None` and are all kept. */
  lemma DropNoneOfLiteral(limit: int, outputFields: Option<seq<string>>, filterExpr: Option<string>, extra: SearchOptions)
    requires forall k :: k in extra ==> extra[k] != PyNone
    ensures DropNone(OptionsLiteral(limit, outputFields, filterExpr) + extra) == CommonOptions(limit, outputFields, filterExpr) + extra
  {
  }

  /** The four-key literal of the two vector methods is the three-key one
      with `vector_queries` added; dropping its `None` placeholders, after
      the semantic keys are in, leaves exactly the vector request's options. */
  lemma DropNoneOfVectorLiteral(limit: int, outputFields: Option<seq<string>>, filterExpr: Option<string>,
                                vector: Vector, vectorField: string, semanticConfiguration: Option<string>)
    ensures DropNone(map["top" := IntValue(limit), "select" := SelectValue(outputFields), "filter" := FilterValue(filterExpr),
                         "vector_queries" := VectorQueries([VectorQuery(vector, vectorField, limit)])]
                     + SemanticOptions(semanticConfiguration))
            == CommonOptions(limit, outputFields, filterExpr) + VectorOptions(vector, vectorField, limit)
               + SemanticOptions(semanticConfiguration)
  {
    var literal := OptionsLiteral(limit, outputFields, filterExpr);
    var v := VectorOptions(vector, vectorField, limit);
    var sem := SemanticOptions(semanticConfiguration);
    assert map["top" := IntValue(limit), "select" := SelectValue(outputFields), "filter" := FilterValue(filterExpr),
               "vector_queries" := VectorQueries([VectorQuery(vector, vectorField, limit)])] == literal + v;
    UnionAssociative(literal, v, sem);
    DropNoneOfLiteral(limit, outputFields, filterExpr, v + sem);
    UnionAssociative(CommonOptions(limit, outputFields, filterExpr), v, sem);
  }

  lemma UnionAssociative(a: SearchOptions, b: SearchOptions, c: SearchOptions)
    ensures (a + b) + c == a + (b + c)
  {
  }

  /** The in-place step: `if semantic_configuration:` add both semantic keys. */
  method EnableSemantic(searchOptions: SearchOptions, semanticConfiguration: Option<string>)
    returns (updated: SearchOptions)
    ensures updated == searchOptions + SemanticOptions(semanticConfiguration)
  {
    updated := searchOptions;
    if TruthyText(semanticConfiguration) {
      updated := updated["semantic_configuration_name" := StrValue(semanticConfiguration.value)];
      updated := updated["query_type" := StrValue("semantic")];
    }
  }

  /** `text_search`: the backend sees exactly `TextSearchRequest`. */
  method TextSearch(c: AzureSearchConnector, backend: Backend, queryText: string, limit: int,
                    outputFields: Option<seq<string>>, filterExpr: Option<string>,
                    semanticConfiguration: Option<string>)
    returns (r: Result<seq<Document>, PyError>)
    ensures r == Collect(TextSearchFailed, backend(c.client, TextSearchRequest(queryText, limit, outputFields, filterExpr, semanticConfiguration)))
  {
    var searchOptions := map["top" := IntValue(limit), "select" := SelectValue(outputFields), "filter" := FilterValue(filterExpr)];
    searchOptions := EnableSemantic(searchOptions, semanticConfiguration);
    DropNoneOfLiteral(limit, outputFields, filterExpr, SemanticOptions(semanticConfiguration));
    var kwargs := DropNone(searchOptions);
    r := Collect(TextSearchFailed, backend(c.client, SearchCall(Some(queryText), kwargs)));
  }

  /** `vector_search`: the backend sees exactly `VectorSearchRequest`. */
  method VectorSearch(c: AzureSearchConnector, backend: Backend, vector: Vector, vectorField: string, limit: int,
                      outputFields: Option<seq<string>>, filterExpr: Option<string>,
                      semanticConfiguration: Option<string>)
    returns (r: Result<seq<Document>, PyError>)
    ensures r == Collect(VectorSearchFailed, backend(c.client, VectorSearchRequest(vector, vectorField, limit, outputFields, filterExpr, semanticConfiguration)))
  {
    var searchOptions := map["top" := IntValue(limit), "select" := SelectValue(outputFields), "filter" := FilterValue(filterExpr),
                             "vector_queries" := VectorQueries([VectorQuery(vector, vectorField, limit)])];
    searchOptions := EnableSemantic(searchOptions, semanticConfiguration);
    DropNoneOfVectorLiteral(limit, outputFields, filterExpr, vector, vectorField, semanticConfiguration);
    var kwargs := DropNone(searchOptions);
    r := Collect(VectorSearchFailed, backend(c.client, SearchCall(None, kwargs)));
  }

  /** `hybrid_search`: the backend sees exactly `HybridSearchRequest`. */
  method HybridSearch(c: AzureSearchConnector, backend: Backend, queryText: string, vector: Vector, vectorField: string,
                      limit: int, outputFields: Option<seq<string>>, filterExpr: Option<string>,
                      semanticConfiguration: Option<string>)
    returns (r: Result<seq<Document>, PyError>)
    ensures r == Collect(HybridSearchFailed, backend(c.client, HybridSearchRequest(queryText, vector, vectorField, limit, outputFields, filterExpr, semanticConfiguration)))
  {
    var searchOptions := map["top" := IntValue(limit), "select" := SelectValue(outputFields), "filter" := FilterValue(filterExpr),
                             "vector_queries" := VectorQueries([VectorQuery(vector, vectorField, limit)])];
    searchOptions := EnableSemantic(searchOptions, semanticConfiguration);
    DropNoneOfVectorLiteral(limit, outputFields, filterExpr, vector, vectorField, semanticConfiguration);
    var kwargs := DropNone(searchOptions);
    r := Collect(HybridSearchFailed, backend(c.client, SearchCall(Some(queryText), kwargs)));
  }

  /** `query`: the backend sees exactly `QueryRequest`. */
  method Query(c: AzureSearchConnector, backend: Backend, filterExpr: string, outputFields: Option<seq<string>>, limit: int)
    returns (r: Result<seq<Document>, PyError>)
    ensures r == Collect(QueryFailed, backend(c.client, QueryRequest(filterExpr, outputFields, limit)))
  {
    var searchOptions := map["top" := IntValue(limit), "select" := SelectValue(outputFields), "filter" := StrValue(filterExpr)];
    DropNoneOfLiteral(limit, outputFields, Some(filterExpr), map[]);
    assert searchOptions == OptionsLiteral(limit, outputFields, Some(filterExpr)) + map[];
    var kwargs := DropNone(searchOptions);
    assert CommonOptions(limit, outputFields, Some(filterExpr)) + map[] == QueryRequest(filterExpr, outputFields, limit).options;
    r := Collect(QueryFailed, backend(c.client, SearchCall(Some("*"), kwargs)));
  }

  // ---------------------------------------------------------------------
  // Properties relating the requests

  /** An empty filter is still sent, while an empty semantic configuration is
      dropped together with `query_type`, and no output fields means no `select`. */
  lemma EmptyFilterKeptEmptySemanticDropped(queryText: string, limit: int)
    ensures TextSearchRequest(queryText, limit, Some([]), Some(""), Some("")).options
            == map["top" := IntValue(limit), "filter" := StrValue("")]
  {
  }

  /** The service splits `select` at commas: it gets back the output fields,
      all of them and in the given order, as long as no field name holds a comma. */
  lemma SelectRoundTrip(limit: int, outputFields: seq<string>, filterExpr: Option<string>)
    requires |outputFields| > 0 && FreeOf(',', outputFields)
    ensures var o := CommonOptions(limit, Some(outputFields), filterExpr);
            "select" in o && o["select"].StrValue? && Split(',', o["select"].s) == outputFields
  {
    SplitJoin(',', outputFields);
  }

  /** A hybrid search sends the options of the vector search with the same
      arguments; only `search_text` differs. */
  lemma HybridIsVectorPlusText(queryText: string, vector: Vector, vectorField: string, limit: int,
                               outputFields: Option<seq<string>>, filterExpr: Option<string>,
                               semanticConfiguration: Option<string>)
    ensures HybridSearchRequest(queryText, vector, vectorField, limit, outputFields, filterExpr, semanticConfiguration)
            == VectorSearchRequest(vector, vectorField, limit, outputFields, filterExpr, semanticConfiguration)
               .(searchText := Some(queryText))
  {
  }

  /** `query` sends what a text search for `"*"` with that filter and no
      semantic configuration sends. */
  lemma QueryIsFilteredMatchAll(filterExpr: string, outputFields: Option<seq<string>>, limit: int)
    ensures QueryRequest(filterExpr, outputFields, limit) == TextSearchRequest("*", limit, outputFields, Some(filterExpr), None)
  {
  }
}
