/** The MCP tool server (src/azure_search_mcp/server.py): `serve` builds one
    default connector, `list_tools` advertises six tools, and `call_tool`
    routes a tool name and its arguments to one connector operation and turns
    the records into text items.

    `call_tool` reads its arguments, applies the defaults and picks the
    connector in its if/elif chain; here that part is the function `Route`.
    Running the chosen operation and assembling the reply is the method
    `CallTool`, proved to produce what the function `Respond` describes.
    `json.dumps` is any function from a record to a string. */
module Server {
  import opened Common
  import opened Connector

  const ServerName := "azure-search"

  const TextSearchTool := "azure-search-text-search"
  const ListIndexesTool := "azure-search-list-indexes"
  const IndexInfoTool := "azure-search-index-info"
  const QueryTool := "azure-search-query"
  const VectorSearchTool := "azure-search-vector-search"
  const HybridSearchTool := "azure-search-hybrid-search"

  /** `limit` when the caller gives none: 5, and 10 for the query tool. */
  const DefaultLimit := 5
  const DefaultQueryLimit := 10

  /** What `serve` keeps for its handlers: the server's name and the default connector. */
  datatype AzureSearchServer = AzureSearchServer(name: string, azureSearch: AzureSearchConnector)

  /** `serve(endpoint, api_key, index_name)`. */
  function Serve(endpoint: string, apiKey: string, indexName: string): (s: AzureSearchServer)
    ensures s.name == ServerName
    ensures Valid(s.azureSearch)
    ensures s.azureSearch.endpoint == endpoint && s.azureSearch.indexName == indexName
    ensures s.azureSearch.credential.key == apiKey
  {
    AzureSearchServer(ServerName, NewConnector(endpoint, apiKey, indexName))
  }

  // ---------------------------------------------------------------------
  // list_tools

  datatype JsonType = StringType | IntegerType | StringArrayType | NumberArrayType

  /** One entry of an input schema's `properties`. */
  datatype Property = Property(name: string, typ: JsonType, description: string, default: Option<int>)

  /** A `types.Tool`; a schema without a `required` key has `required == []`. */
  datatype Tool = Tool(name: string, description: string, properties: seq<Property>, required: seq<string>)

  function PropertyNames(t: Tool): seq<string> {
    seq(|t.properties|, i requires 0 <= i < |t.properties| => t.properties[i].name)
  }

  function ToolNames(tools: seq<Tool>): seq<string> {
    seq(|tools|, i requires 0 <= i < |tools| => tools[i].name)
  }

  const IndexNameProperty := Property("index_name", StringType, "Name of the index to search (optional, uses default if not specified)", None)
  const OutputFieldsProperty := Property("output_fields", StringArrayType, "Fields to include in results", None)
  const FilterProperty := Property("filter_expr", StringType, "Optional filter expression", None)
  const SemanticProperty := Property("semantic_configuration", StringType, "Optional semantic configuration name to enable semantic search", None)
  const VectorProperty := Property("vector", NumberArrayType, "Query vector", None)
  const VectorFieldProperty := Property("vector_field", StringType, "Field containing vectors to search", None)
  const LimitProperty := Property("limit", IntegerType, "Maximum number of results", Some(DefaultLimit))

  const TextSearchSchema :=
    Tool(TextSearchTool, "Search for documents using full text search in an Azure Search index",
         [ Property("query_text", StringType, "Text to search for", None),
           IndexNameProperty,
           Property("limit", IntegerType, "Maximum number of results to return", Some(DefaultLimit)),
           OutputFieldsProperty, FilterProperty, SemanticProperty ],
         ["query_text"])
  const ListIndexesSchema := Tool(ListIndexesTool, "List all indexes in the Azure Search service", [], [])
  const IndexInfoSchema :=
    Tool(IndexInfoTool, "Get detailed information about an Azure Search index",
         [ Property("index_name", StringType, "Name of the index", None) ],
         ["index_name"])
  const QuerySchema :=
    Tool(QueryTool, "Query Azure Search index using filter expressions",
         [ Property("filter_expr", StringType, "Filter expression (e.g. 'category eq \\'documentation\\'')", None),
           Property("index_name", StringType, "Name of the index to query (optional, uses default if not specified)", None),
           OutputFieldsProperty,
           Property("limit", IntegerType, "Maximum number of results", Some(DefaultQueryLimit)) ],
         ["filter_expr"])
  const VectorSearchSchema :=
    Tool(VectorSearchTool, "Perform vector similarity search on an Azure Search index",
         [ VectorProperty, VectorFieldProperty, IndexNameProperty, LimitProperty,
           OutputFieldsProperty, FilterProperty, SemanticProperty ],
         ["vector", "vector_field"])
  const HybridSearchSchema :=
    Tool(HybridSearchTool, "Perform hybrid search combining text and vector similarity on an Azure Search index",
         [ Property("query_text", StringType, "Text to search for", None),
           VectorProperty, VectorFieldProperty, IndexNameProperty, LimitProperty,
           OutputFieldsProperty, FilterProperty, SemanticProperty ],
         ["query_text", "vector", "vector_field"])

  /** `list_tools`: the six tools and their input schemas. */
  function ListTools(): (tools: seq<Tool>)
    ensures |tools| == 6
    ensures tools[0].name == TextSearchTool && tools[0].required == ["query_text"]
    ensures tools[1].name == ListIndexesTool && tools[1].required == [] && tools[1].properties == []
    ensures tools[2].name == IndexInfoTool && tools[2].required == ["index_name"]
    ensures tools[3].name == QueryTool && tools[3].required == ["filter_expr"]
    ensures tools[4].name == VectorSearchTool && tools[4].required == ["vector", "vector_field"]
    ensures tools[5].name == HybridSearchTool && tools[5].required == ["query_text", "vector", "vector_field"]
  {
    [TextSearchSchema, ListIndexesSchema, IndexInfoSchema, QuerySchema, VectorSearchSchema, HybridSearchSchema]
  }

  /** Every required argument of every tool is one of its declared properties. */
  lemma RequiredArgumentsAreDeclared()
    ensures forall i, j :: 0 <= i < |ListTools()| && 0 <= j < |ListTools()[i].required| ==>
              ListTools()[i].required[j] in PropertyNames(ListTools()[i])
  {
    var tools := ListTools();
    assert PropertyNames(tools[0])[0] == "query_text";
    assert PropertyNames(tools[2])[0] == "index_name";
    assert PropertyNames(tools[3])[0] == "filter_expr";
    assert PropertyNames(tools[4])[0] == "vector" && PropertyNames(tools[4])[1] == "vector_field";
    assert PropertyNames(tools[5])[0] == "query_text";
    assert PropertyNames(tools[5])[1] == "vector" && PropertyNames(tools[5])[2] == "vector_field";
  }

  /** The `required` list advertised for a tool name; `[]` for unknown names. */
  function RequiredOf(name: string): seq<string> {
    var tools := ListTools();
    if name == tools[0].name then tools[0].required
    else if name == tools[1].name then tools[1].required
    else if name == tools[2].name then tools[2].required
    else if name == tools[3].name then tools[3].required
    else if name == tools[4].name then tools[4].required
    else if name == tools[5].name then tools[5].required
    else []
  }

  // ---------------------------------------------------------------------
  // call_tool: reading the arguments

  /** The `arguments` dict of a call; `None` is a key the caller left out.
      Values are taken to have the types the schemas declare. */
  datatype ToolArguments = ToolArguments(
    queryText: Option<string>,
    indexName: Option<string>,
    limit: Option<int>,
    outputFields: Option<seq<string>>,
    filterExpr: Option<string>,
    semanticConfiguration: Option<string>,
    vector: Option<Vector>,
    vectorField: Option<string>)

  /** `key in arguments`. */
  predicate Has(args: ToolArguments, key: string) {
    if key == "query_text" then args.queryText.Some?
    else if key == "index_name" then args.indexName.Some?
    else if key == "limit" then args.limit.Some?
    else if key == "output_fields" then args.outputFields.Some?
    else if key == "filter_expr" then args.filterExpr.Some?
    else if key == "semantic_configuration" then args.semanticConfiguration.Some?
    else if key == "vector" then args.vector.Some?
    else if key == "vector_field" then args.vectorField.Some?
    else false
  }

  /** The first key of `keys` that the arguments lack. */
  function FirstMissing(keys: seq<string>, args: ToolArguments): (k: string)
    requires exists i :: 0 <= i < |keys| && !Has(args, keys[i])
    ensures k in keys && !Has(args, k)
  {
    if !Has(args, keys[0]) then keys[0] else FirstMissing(keys[1..], args)
  }

  /** The default connector, or a fresh one built for another index. */
  datatype ConnectorChoice = DefaultConnector | FreshConnector(connector: AzureSearchConnector)

  function ConnectorOf(azureSearch: AzureSearchConnector, choice: ConnectorChoice): AzureSearchConnector {
    match choice
    case DefaultConnector => azureSearch
    case FreshConnector(c) => c
  }

  /** "If index_name is different from the default, create a new connector"
      with the default's endpoint and key. */
  function SelectConnector(azureSearch: AzureSearchConnector, indexName: string): (choice: ConnectorChoice)
    ensures choice.FreshConnector? <==> indexName != azureSearch.indexName
    ensures ConnectorOf(azureSearch, choice).indexName == indexName
    ensures ConnectorOf(azureSearch, choice).endpoint == azureSearch.endpoint
    ensures ConnectorOf(azureSearch, choice).credential.key == azureSearch.credential.key
    ensures Valid(azureSearch) ==> Valid(ConnectorOf(azureSearch, choice))
  {
    if indexName != azureSearch.indexName then
      FreshConnector(NewConnector(azureSearch.endpoint, azureSearch.credential.key, indexName))
    else DefaultConnector
  }

  /** The connector operation one branch of the if/elif chain performs, with
      its arguments after the defaults are applied. */
  datatype Invocation =
    | InvokeTextSearch(choice: ConnectorChoice, indexName: string, queryText: string, limit: int,
                       outputFields: Option<seq<string>>, filterExpr: Option<string>,
                       semanticConfiguration: Option<string>)
    | InvokeListIndexes
    | InvokeIndexInfo(indexName: string)
    | InvokeQuery(choice: ConnectorChoice, indexName: string, filter: string,
                  outputFields: Option<seq<string>>, limit: int)
    | InvokeVectorSearch(choice: ConnectorChoice, indexName: string, vector: Vector, vectorField: string, limit: int,
                         outputFields: Option<seq<string>>, filterExpr: Option<string>,
                         semanticConfiguration: Option<string>)
    | InvokeHybridSearch(choice: ConnectorChoice, indexName: string, queryText: string, vector: Vector,
                         vectorField: string, limit: int, outputFields: Option<seq<string>>,
                         filterExpr: Option<string>, semanticConfiguration: Option<string>)
  {
    /** The four tools that search the index and reply with records. */
    predicate IsSearch() {
      !InvokeListIndexes? && !InvokeIndexInfo?
    }
  }

  /** The tool whose branch performs an invocation. */
  function ToolOf(inv: Invocation): string {
    match inv
    case InvokeTextSearch(_, _, _, _, _, _, _) => TextSearchTool
    case InvokeListIndexes => ListIndexesTool
    case InvokeIndexInfo(_) => IndexInfoTool
    case InvokeQuery(_, _, _, _, _) => QueryTool
    case InvokeVectorSearch(_, _, _, _, _, _, _, _) => VectorSearchTool
    case InvokeHybridSearch(_, _, _, _, _, _, _, _, _) => HybridSearchTool
  }

  /** The if/elif chain of `call_tool` up to the connector call: a `KeyError`
      for a missing required argument (the first one read), `None` for a
      name no branch matches, or the operation to perform. */
  function Route(s: AzureSearchServer, name: string, args: ToolArguments): (r: Result<Option<Invocation>, PyError>)
    ensures r.Err? ==> r.error.KeyError?
    ensures r == Ok(None) <==>
              name !in [TextSearchTool, ListIndexesTool, IndexInfoTool, QueryTool, VectorSearchTool, HybridSearchTool]
    ensures r.Ok? && r.value.Some? ==> ToolOf(r.value.value) == name
  {
    var azureSearch := s.azureSearch;
    var indexName := args.indexName.GetOr(azureSearch.indexName);
    if name == TextSearchTool then
      if args.queryText.None? then Err(KeyError("query_text"))
      else Ok(Some(InvokeTextSearch(SelectConnector(azureSearch, indexName), indexName, args.queryText.value,
                                    args.limit.GetOr(DefaultLimit), args.outputFields, args.filterExpr,
                                    args.semanticConfiguration)))
    else if name == ListIndexesTool then
      Ok(Some(InvokeListIndexes))
    else if name == IndexInfoTool then
      if args.indexName.None? then Err(KeyError("index_name"))
      else Ok(Some(InvokeIndexInfo(args.indexName.value)))
    else if name == QueryTool then
      if args.filterExpr.None? then Err(KeyError("filter_expr"))
      else Ok(Some(InvokeQuery(SelectConnector(azureSearch, indexName), indexName, args.filterExpr.value,
                               args.outputFields, args.limit.GetOr(DefaultQueryLimit))))
    else if name == VectorSearchTool then
      if args.vector.None? then Err(KeyError("vector"))
      else if args.vectorField.None? then Err(KeyError("vector_field"))
      else Ok(Some(InvokeVectorSearch(SelectConnector(azureSearch, indexName), indexName, args.vector.value,
                                      args.vectorField.value, args.limit.GetOr(DefaultLimit), args.outputFields,
                                      args.filterExpr, args.semanticConfiguration)))
    else if name == HybridSearchTool then
      if args.queryText.None? then Err(KeyError("query_text"))
      else if args.vector.None? then Err(KeyError("vector"))
      else if args.vectorField.None? then Err(KeyError("vector_field"))
      else Ok(Some(InvokeHybridSearch(SelectConnector(azureSearch, indexName), indexName, args.queryText.value,
                                      args.vector.value, args.vectorField.value, args.limit.GetOr(DefaultLimit),
                                      args.outputFields, args.filterExpr, args.semanticConfiguration)))
    else Ok(None)
  }

  // ---------------------------------------------------------------------
  // call_tool: the reply

  /** A `types.TextContent` (its `type` is always `"text"`). */
  datatype TextContent = TextContent(text: string)

  /** What `call_tool` comes to: the list it returns (`None` when it falls
      off the end of the chain), or the exception that escapes it. */
  datatype CallOutcome = Returned(content: Option<seq<TextContent>>) | Raised(error: PyError)

  /** The header begins with `lead` followed at once by `subject`. */
  predicate Opens(h: string, lead: string, subject: string) {
    |lead| + |subject| <= |h| && h[..|lead| + |subject|] == lead + subject
  }

  /** The first item of a search tool's reply: it names the query or filter
      where there is one, and always ends by naming the index searched. */
  function Header(inv: Invocation): (h: string)
    requires inv.IsSearch()
    ensures |h| >= |inv.indexName| + 2 && h[|h| - |inv.indexName| - 2..] == inv.indexName + "':"
    ensures inv.InvokeTextSearch? ==> Opens(h, "Search results for '", inv.queryText)
    ensures inv.InvokeQuery? ==> Opens(h, "Query results for '", inv.filter)
    ensures inv.InvokeVectorSearch? ==> h == "Vector search results in index '" + inv.indexName + "':"
    ensures inv.InvokeHybridSearch? ==> Opens(h, "Hybrid search results for '", inv.queryText)
  {
    match inv
    case InvokeTextSearch(_, indexName, queryText, _, _, _, _) =>
      "Search results for '" + queryText + "' in index '" + indexName + "':"
    case InvokeQuery(_, indexName, filter, _, _) =>
      "Query results for '" + filter + "' in index '" + indexName + "':"
    case InvokeVectorSearch(_, indexName, _, _, _, _, _, _) =>
      "Vector search results in index '" + indexName + "':"
    case InvokeHybridSearch(_, indexName, queryText, _, _, _, _, _, _) =>
      "Hybrid search results for '" + queryText + "' in index '" + indexName + "':"
  }

  /** One record of a reply. */
  function ResultText(json: string): string {
    "<r>" + json + "<r>"
  }

  function IndexesText(indexes: seq<string>): string {
    "Indexes in Azure Search service:\n" + Join(", ", indexes)
  }

  function IndexInfoText(indexName: string, json: string): string {
    "Index info for '" + indexName + "':\n" + json
  }

  /** The header, then one item appended per record. */
  function Reply(header: string, results: seq<Document>, dumps: Document -> string): seq<TextContent>
    decreases |results|
  {
    if |results| == 0 then [TextContent(header)]
    else Reply(header, results[..|results| - 1], dumps) + [TextContent(ResultText(dumps(results[|results| - 1])))]
  }

  /** A reply is the header followed by every record, in order. */
  lemma {:induction false} ReplyShape(header: string, results: seq<Document>, dumps: Document -> string)
    ensures |Reply(header, results, dumps)| == 1 + |results|
    ensures Reply(header, results, dumps)[0] == TextContent(header)
    ensures forall i :: 0 <= i < |results| ==>
              Reply(header, results, dumps)[i + 1] == TextContent(ResultText(dumps(results[i])))
    decreases |results|
  {
    if |results| > 0 {
      var front := results[..|results| - 1];
      ReplyShape(header, front, dumps);
      forall i | 0 <= i < |front| ensures results[i] == front[i] {}
    }
  }

  /** What the connector operation of a search invocation returns or raises. */
  function SearchResults(s: AzureSearchServer, backend: Backend, inv: Invocation): Result<seq<Document>, PyError>
    requires inv.IsSearch()
  {
    var c := ConnectorOf(s.azureSearch, inv.choice);
    match inv
    case InvokeTextSearch(_, _, queryText, limit, outputFields, filterExpr, semanticConfiguration) =>
      Collect(TextSearchFailed, backend(c.client, TextSearchRequest(queryText, limit, outputFields, filterExpr, semanticConfiguration)))
    case InvokeQuery(_, _, filter, outputFields, limit) =>
      Collect(QueryFailed, backend(c.client, QueryRequest(filter, outputFields, limit)))
    case InvokeVectorSearch(_, _, vector, vectorField, limit, outputFields, filterExpr, semanticConfiguration) =>
      Collect(VectorSearchFailed, backend(c.client, VectorSearchRequest(vector, vectorField, limit, outputFields, filterExpr, semanticConfiguration)))
    case InvokeHybridSearch(_, _, queryText, vector, vectorField, limit, outputFields, filterExpr, semanticConfiguration) =>
      Collect(HybridSearchFailed, backend(c.client, HybridSearchRequest(queryText, vector, vectorField, limit, outputFields, filterExpr, semanticConfiguration)))
  }

  /** Performing one invocation. Connector errors are not caught. */
  function Perform(s: AzureSearchServer, backend: Backend, dumps: Document -> string, inv: Invocation): (r: CallOutcome)
    ensures r.Raised? <==> inv.IsSearch() && SearchResults(s, backend, inv).Err?
    ensures r.Raised? ==> r.error.ValueError?
    ensures r.Returned? ==> r.content.Some?
    ensures r.Returned? && !inv.IsSearch() ==> |r.content.value| == 1
    ensures r.Returned? && inv.IsSearch() ==> |r.content.value| == 1 + |SearchResults(s, backend, inv).value|
  {
    match inv
    case InvokeListIndexes =>
      Returned(Some([TextContent(IndexesText(ListIndexes(s.azureSearch)))]))
    case InvokeIndexInfo(indexName) =>
      Returned(Some([TextContent(IndexInfoText(indexName, dumps(GetIndexInfo(s.azureSearch, indexName))))]))
    case _ =>
      match SearchResults(s, backend, inv)
      case Err(e) => Raised(e)
      case Ok(results) =>
        ReplyShape(Header(inv), results, dumps);
        Returned(Some(Reply(Header(inv), results, dumps)))
  }

  /** What `call_tool(name, arguments)` returns or raises. */
  function Respond(s: AzureSearchServer, backend: Backend, dumps: Document -> string,
                   name: string, args: ToolArguments): (r: CallOutcome)
    ensures r.Raised? && r.error.KeyError? <==> Route(s, name, args).Err?
    ensures r.Raised? && r.error.ValueError? <==>
              && Route(s, name, args).Ok? && Route(s, name, args).value.Some?
              && Route(s, name, args).value.value.IsSearch()
              && SearchResults(s, backend, Route(s, name, args).value.value).Err?
    ensures r == Returned(None) <==> Route(s, name, args) == Ok(None)
  {
    match Route(s, name, args)
    case Err(e) => Raised(e)
    case Ok(None) => Returned(None)
    case Ok(Some(inv)) => Perform(s, backend, dumps, inv)
  }

  /** `content = [header]` and `content.append(...)` for each result. */
  method AssembleReply(header: string, results: seq<Document>, dumps: Document -> string)
    returns (content: seq<TextContent>)
    ensures content == Reply(header, results, dumps)
    ensures |content| == 1 + |results| && content[0] == TextContent(header)
    ensures forall i :: 0 <= i < |results| ==> content[i + 1] == TextContent(ResultText(dumps(results[i])))
  {
    content := [TextContent(header)];
    for i := 0 to |results|
      invariant content == Reply(header, results[..i], dumps)
    {
      assert results[..i + 1][..i] == results[..i];
      content := content + [TextContent(ResultText(dumps(results[i])))];
    }
    assert results[..|results|] == results;
    ReplyShape(header, results, dumps);
  }

  /** `call_tool(name, arguments)`. */
  method CallTool(s: AzureSearchServer, backend: Backend, dumps: Document -> string,
                  name: string, args: ToolArguments)
    returns (r: CallOutcome)
    ensures r == Respond(s, backend, dumps, name, args)
  {
    var routed := Route(s, name, args);
    if routed.Err? {
      return Raised(routed.error);
    }
    if routed.value.None? {
      return Returned(None);
    }
    var inv := routed.value.value;
    match inv {
      case InvokeTextSearch(choice, _, queryText, limit, outputFields, filterExpr, semanticConfiguration) =>
        var results := TextSearch(ConnectorOf(s.azureSearch, choice), backend, queryText, limit,
                                  outputFields, filterExpr, semanticConfiguration);
        if results.Err? {
          return Raised(results.error);
        }
        var content := AssembleReply(Header(inv), results.value, dumps);
        r := Returned(Some(content));
      case InvokeListIndexes =>
        var indexes := ListIndexes(s.azureSearch);
        r := Returned(Some([TextContent(IndexesText(indexes))]));
      case InvokeIndexInfo(indexName) =>
        var info := GetIndexInfo(s.azureSearch, indexName);
        r := Returned(Some([TextContent(IndexInfoText(indexName, dumps(info)))]));
      case InvokeQuery(choice, _, filter, outputFields, limit) =>
        var results := Query(ConnectorOf(s.azureSearch, choice), backend, filter, outputFields, limit);
        if results.Err? {
          return Raised(results.error);
        }
        var content := AssembleReply(Header(inv), results.value, dumps);
        r := Returned(Some(content));
      case InvokeVectorSearch(choice, _, vector, vectorField, limit, outputFields, filterExpr, semanticConfiguration) =>
        var results := VectorSearch(ConnectorOf(s.azureSearch, choice), backend, vector, vectorField, limit,
                                    outputFields, filterExpr, semanticConfiguration);
        if results.Err? {
          return Raised(results.error);
        }
        var content := AssembleReply(Header(inv), results.value, dumps);
        r := Returned(Some(content));
      case InvokeHybridSearch(choice, _, queryText, vector, vectorField, limit, outputFields, filterExpr, semanticConfiguration) =>
        var results := HybridSearch(ConnectorOf(s.azureSearch, choice), backend, queryText, vector, vectorField, limit,
                                    outputFields, filterExpr, semanticConfiguration);
        if results.Err? {
          return Raised(results.error);
        }
        var content := AssembleReply(Header(inv), results.value, dumps);
        r := Returned(Some(content));
    }
  }

  // ---------------------------------------------------------------------
  // Properties of call_tool

  /** `call_tool` returns nothing exactly for the names `list_tools` does not advertise. */
  lemma UnknownToolReturnsNothing(s: AzureSearchServer, backend: Backend, dumps: Document -> string,
                                  name: string, args: ToolArguments)
    ensures Respond(s, backend, dumps, name, args) == Returned(None) <==> name !in ToolNames(ListTools())
  {
    assert ToolNames(ListTools()) == [TextSearchTool, ListIndexesTool, IndexInfoTool, QueryTool, VectorSearchTool, HybridSearchTool];
  }

  /** A call raises `KeyError` exactly when it lacks an argument that the
      tool's schema marks required, and then it names the first such argument. */
  lemma KeyErrorExactlyForMissingRequired(s: AzureSearchServer, name: string, args: ToolArguments)
    requires name in ToolNames(ListTools())
    ensures Route(s, name, args).Err? <==> exists i :: 0 <= i < |RequiredOf(name)| && !Has(args, RequiredOf(name)[i])
    ensures Route(s, name, args).Err? ==> Route(s, name, args).error == KeyError(FirstMissing(RequiredOf(name), args))
  {
    var required := RequiredOf(name);
    var routed := Route(s, name, args);
    if name == TextSearchTool {
      assert required == ["query_text"];
      if routed.Err? { assert !Has(args, required[0]); }
    } else if name == ListIndexesTool {
      assert required == [];
    } else if name == IndexInfoTool {
      assert required == ["index_name"];
      if routed.Err? { assert !Has(args, required[0]); }
    } else if name == QueryTool {
      assert required == ["filter_expr"];
      if routed.Err? { assert !Has(args, required[0]); }
    } else if name == VectorSearchTool {
      assert required == ["vector", "vector_field"];
      assert required[1..] == ["vector_field"];
      if routed.Err? && args.vector.None? { assert !Has(args, required[0]); }
      if routed.Err? && args.vector.Some? { assert !Has(args, required[1]); }
    } else {
      assert name == HybridSearchTool;
      assert required == ["query_text", "vector", "vector_field"];
      assert required[1..] == ["vector", "vector_field"];
      assert required[1..][1..] == ["vector_field"];
      if routed.Err? && args.queryText.None? { assert !Has(args, required[0]); }
      if routed.Err? && args.queryText.Some? && args.vector.None? { assert !Has(args, required[1]); }
      if routed.Err? && args.queryText.Some? && args.vector.Some? { assert !Has(args, required[2]); }
    }
  }

  /** A missing `index_name` means the default index, a missing `limit` means
      5, or 10 for the query tool; the other arguments pass through unchanged. */
  lemma DefaultsApplied(s: AzureSearchServer, name: string, args: ToolArguments)
    requires Route(s, name, args).Ok? && Route(s, name, args).value.Some?
    requires Route(s, name, args).value.value.IsSearch()
    ensures var inv := Route(s, name, args).value.value;
            && inv.indexName == args.indexName.GetOr(s.azureSearch.indexName)
            && inv.limit == args.limit.GetOr(if name == QueryTool then DefaultQueryLimit else DefaultLimit)
            && inv.outputFields == args.outputFields
    ensures var inv := Route(s, name, args).value.value;
            inv.InvokeTextSearch? ==>
              && inv.queryText == args.queryText.value
              && inv.filterExpr == args.filterExpr
              && inv.semanticConfiguration == args.semanticConfiguration
    ensures var inv := Route(s, name, args).value.value;
            inv.InvokeQuery? ==> inv.filter == args.filterExpr.value
    ensures var inv := Route(s, name, args).value.value;
            inv.InvokeVectorSearch? ==>
              && inv.vector == args.vector.value
              && inv.vectorField == args.vectorField.value
              && inv.filterExpr == args.filterExpr
              && inv.semanticConfiguration == args.semanticConfiguration
    ensures var inv := Route(s, name, args).value.value;
            inv.InvokeHybridSearch? ==>
              && inv.queryText == args.queryText.value
              && inv.vector == args.vector.value
              && inv.vectorField == args.vectorField.value
              && inv.filterExpr == args.filterExpr
              && inv.semanticConfiguration == args.semanticConfiguration
  {
  }

  /** A search builds a fresh connector exactly when it names an index other
      than the default, and whichever connector it uses searches that index
      on the default's endpoint with the default's key. */
  lemma SearchesTheNamedIndex(s: AzureSearchServer, name: string, args: ToolArguments)
    requires Valid(s.azureSearch)
    requires Route(s, name, args).Ok? && Route(s, name, args).value.Some?
    requires Route(s, name, args).value.value.IsSearch()
    ensures var inv := Route(s, name, args).value.value;
            var c := ConnectorOf(s.azureSearch, inv.choice);
            && (inv.choice.FreshConnector? <==> inv.indexName != s.azureSearch.indexName)
            && c.client.indexName == inv.indexName
            && c.client.endpoint == s.azureSearch.endpoint
            && c.client.credential == s.azureSearch.credential
  {
  }

  /** A search tool replies with its header and then one item per record, in
      the backend's order; a backend failure escapes as the connector's `ValueError`. */
  lemma SearchReply(s: AzureSearchServer, backend: Backend, dumps: Document -> string, name: string, args: ToolArguments)
    requires Route(s, name, args).Ok? && Route(s, name, args).value.Some?
    requires Route(s, name, args).value.value.IsSearch()
    ensures var inv := Route(s, name, args).value.value;
            var r := Respond(s, backend, dumps, name, args);
            match SearchResults(s, backend, inv)
            case Err(e) => r == Raised(e) && e.ValueError?
            case Ok(results) =>
              && r.Returned? && r.content.Some?
              && |r.content.value| == 1 + |results|
              && r.content.value[0] == TextContent(Header(inv))
              && forall i :: 0 <= i < |results| ==> r.content.value[i + 1] == TextContent(ResultText(dumps(results[i])))
  {
    var inv := Route(s, name, args).value.value;
    match SearchResults(s, backend, inv)
    case Err(e) =>
    case Ok(results) => ReplyShape(Header(inv), results, dumps);
  }

  /** The list-indexes tool ignores its arguments and names the default index. */
  lemma ListIndexesReply(s: AzureSearchServer, backend: Backend, dumps: Document -> string, args: ToolArguments)
    ensures Respond(s, backend, dumps, ListIndexesTool, args)
            == Returned(Some([TextContent("Indexes in Azure Search service:\n" + s.azureSearch.indexName)]))
  {
  }

  /** The index-info tool describes the name it is given with the fixed field list. */
  lemma IndexInfoReply(s: AzureSearchServer, backend: Backend, dumps: Document -> string, args: ToolArguments)
    requires args.indexName.Some?
    ensures var info := map["name" := JString(args.indexName.value),
                            "fields" := JArray([JString("id"), JString("content"), JString("title"),
                                                JString("category"), JString("url")])];
            Respond(s, backend, dumps, IndexInfoTool, args)
            == Returned(Some([TextContent("Index info for '" + args.indexName.value + "':\n" + dumps(info))]))
  {
    assert JsonStrings(IndexFields()) == [JString("id"), JString("content"), JString("title"),
                                          JString("category"), JString("url")];
  }
}
