# Azure AI Search MCP server: a Dafny model

This project models the request-shaping and tool-dispatch core of an MCP
server (`azure-search`) that puts Azure AI Search behind six tools. It then
proves properties of that model.

- `common.dfy` (module `Common`) holds what both layers share: Python's
  optional values and truthiness, the two exceptions that leave the core
  (`ValueError`, `KeyError`), JSON values, and `str.join` with its inverse
  `Split`.
- `connector.dfy` (module `Connector`) models `AzureSearchConnector`.
  - The functions `TextSearchRequest`, `VectorSearchRequest`,
    `HybridSearchRequest` and `QueryRequest` say which `search_text` and which
    keyword arguments reach `SearchClient.search`. Their contracts give the
    rules for `top`, `select`, `filter`, the semantic keys and `vector_queries`.
  - The methods `TextSearch`, `VectorSearch`, `HybridSearch` and `Query` build
    the options the way the source does: a dict literal with `None`
    placeholders, the semantic keys added in place, then every `None` value
    dropped. Each method is proved to send exactly its request function's
    call. Each returns the backend's records unchanged, or a `ValueError` with
    the method's prefix. Vector queries ask for `k = limit` nearest
    neighbours.
  - `list_indexes`, `get_index_info` and `_get_index_fields` are the stubs
    they are in the source.
- `server.dfy` (module `Server`) models `serve`, `list_tools` and `call_tool`.
  - `ListTools` is the literal list of six tool schemas.
  - `Route` is the if/elif chain of `call_tool`. It reads the arguments
    (raising `KeyError` for a missing required one), applies the defaults and
    picks the default connector or a fresh one. An unknown name gets `None`.
  - `Respond` says what `call_tool` returns or raises. The method `CallTool`
    runs the connector methods and `AssembleReply` (the `content.append` loop),
    and is proved equal to `Respond`. A connector's `ValueError` is not caught:
    it propagates out of `call_tool`.

The Azure SDK is a parameter: a `Backend` is any function from the client and
the call to either the sequence of records or the message of the exception
raised. `json.dumps` is a parameter too: any function from a record to a
string.

## Model

| member | source | states |
|---|---|---|
| `Connector.NewConnector` | src/azure_search_mcp/connector.py:7-20 | the connector keeps the endpoint, the index name and the key it was given, and its client is bound to that endpoint, index and credential |
| `Connector.ListIndexes` | src/azure_search_mcp/connector.py:22-31 | exactly one index is listed: the connector's own |
| `Connector.IndexFields` | src/azure_search_mcp/connector.py:43-47 | the field list is the fixed `id, content, title, category, url`, in that order |
| `Connector.GetIndexInfo` | src/azure_search_mcp/connector.py:33-41 | the description has exactly the keys `name` and `fields`; `name` is the name asked for, not the connector's index, and `fields` is the fixed list |
| `Connector.TextSearchRequest` | src/azure_search_mcp/connector.py:67-82 | search text is the query; `top` is the limit; `select` is present exactly when the output fields are a non-empty list, and then is their comma-join; `filter` is present exactly when one is given, even `""`; both semantic keys are present exactly for a non-empty configuration, with `query_type` `"semantic"`; no vector query; no `None` value and no unknown key |
| `Connector.VectorSearchRequest` | src/azure_search_mcp/connector.py:108-132 | no search text; the same `top`/`select`/`filter`/semantic rules; exactly one vector query with the given vector, `fields` the vector field and `k` the limit |
| `Connector.HybridSearchRequest` | src/azure_search_mcp/connector.py:160-183 | search text is the query, together with the same single vector query (`k` the limit) and the same option rules |
| `Connector.QueryRequest` | src/azure_search_mcp/connector.py:203-214 | search text is `"*"`; `top` is the limit; the filter is always sent, `""` included; `select` follows the output-field rule; no semantic key and no vector query |
| `Connector.Collect` | src/azure_search_mcp/connector.py:84-86 | success exactly when the backend returned records, and then the same records in the same order; otherwise a `ValueError` whose message is the method's prefix followed by the backend's message |
| `Connector.DropNone` | src/azure_search_mcp/connector.py:81 | a key survives exactly when its value is not `None`, and keeps its value |
| `Connector.EnableSemantic` | src/azure_search_mcp/connector.py:75-77 | a truthy configuration adds `semantic_configuration_name` and `query_type`; a `None` or empty one leaves the options as they were |
| `Connector.DropNoneOfLiteral` | src/azure_search_mcp/connector.py:68-72 | dropping the `None` placeholders of the three-key literal leaves the common options, and later keys with values are kept |
| `Connector.DropNoneOfVectorLiteral` | src/azure_search_mcp/connector.py:110-131 | the four-key literal plus the semantic keys, once `None`s are dropped, is exactly the vector request's options |
| `Connector.TextSearch` | src/azure_search_mcp/connector.py:49-86 | the backend receives exactly `TextSearchRequest`; its records come back unchanged, and its failure comes back as `ValueError("Search failed: " + message)` |
| `Connector.VectorSearch` | src/azure_search_mcp/connector.py:88-136 | the backend receives exactly `VectorSearchRequest`; a failure comes back with the prefix "Vector search failed: " |
| `Connector.HybridSearch` | src/azure_search_mcp/connector.py:138-187 | the backend receives exactly `HybridSearchRequest`; a failure comes back with the prefix "Hybrid search failed: " |
| `Connector.Query` | src/azure_search_mcp/connector.py:189-218 | the backend receives exactly `QueryRequest`; a failure comes back with the prefix "Query failed: " |
| `Connector.EmptyFilterKeptEmptySemanticDropped` | src/azure_search_mcp/connector.py:68-81 | with an empty field list, `filter_expr=""` and `semantic_configuration=""`, the options sent are exactly `top` and `filter: ""` |
| `Connector.SelectRoundTrip` | src/azure_search_mcp/connector.py:70 | splitting `select` at commas gives back the output fields, all of them and in order, when no field name holds a comma |
| `Common.Join` | src/azure_search_mcp/connector.py:70 | joining no parts gives `""`; otherwise the result starts with the first part and is as long as all the parts plus one separator between each two |
| `Common.SplitJoin` | src/azure_search_mcp/connector.py:70 | joining with a one-character separator and then splitting at it is the identity on non-empty lists whose parts do not contain it |
| `Connector.HybridIsVectorPlusText` | src/azure_search_mcp/connector.py:160-183 | a hybrid search sends the vector search's options for the same arguments; only `search_text` differs |
| `Connector.QueryIsFilteredMatchAll` | src/azure_search_mcp/connector.py:203-214 | `query` sends what a text search for `"*"` with that filter and no semantic configuration sends |
| `Server.Serve` | src/azure_search_mcp/server.py:15-25 | the server is named `azure-search` and its default connector is bound to the given endpoint, key and index |
| `Server.ListTools` | src/azure_search_mcp/server.py:27-199 | six tools, in order text-search, list-indexes, index-info, query, vector-search, hybrid-search, with required arguments `query_text`; none; `index_name`; `filter_expr`; `vector, vector_field`; `query_text, vector, vector_field` |
| `Server.RequiredArgumentsAreDeclared` | src/azure_search_mcp/server.py:27-199 | every required argument of every tool is one of that tool's declared properties |
| `Server.SelectConnector` | src/azure_search_mcp/server.py:213-221 | a fresh connector exactly when the requested index differs from the default; either way the connector used is for the requested index, on the default's endpoint with the default's key |
| `Server.Header` | src/azure_search_mcp/server.py:231-378 | every search header ends by naming the index searched; the text and hybrid headers open with their phrase and the quoted query text, the query header with its phrase and the quoted filter; the vector header names only the index |
| `Server.ReplyShape` | src/azure_search_mcp/server.py:231-245 | a reply has one item more than there are records; item 0 is the header and item `i+1` is `"<r>" + json(record i) + "<r>"` |
| `Server.AssembleReply` | src/azure_search_mcp/server.py:231-243 | the loop builds exactly that reply: header first, then one item per record in order |
| `Server.Perform` | src/azure_search_mcp/server.py:223-389 | a routed operation raises exactly when it is a search whose connector call fails, and then a `ValueError`; list-indexes and index-info reply with one item, a search with one item more than its records |
| `Server.Respond` | src/azure_search_mcp/server.py:201-391 | `call_tool` raises `KeyError` exactly when reading the arguments fails, raises `ValueError` exactly when a search's connector call fails, and returns nothing exactly when no branch matches |
| `Server.CallTool` | src/azure_search_mcp/server.py:201-389 | running the routed connector method and assembling its reply gives exactly what `call_tool` returns or raises |
| `Server.UnknownToolReturnsNothing` | src/azure_search_mcp/server.py:205-391 | `call_tool` returns nothing exactly for names that `list_tools` does not advertise |
| `Server.Route` | src/azure_search_mcp/server.py:205-363 | the only exception raised while reading the arguments is `KeyError`; the chain matches nothing exactly for names other than the six tools; a matched name invokes the connector operation of its own branch and no other |
| `Server.KeyErrorExactlyForMissingRequired` | src/azure_search_mcp/server.py:205-389 | for an advertised tool, a `KeyError` is raised exactly when a required argument of its schema is missing, and it names the first such argument in schema order |
| `Server.DefaultsApplied` | src/azure_search_mcp/server.py:205-363 | a missing `index_name` means the default index, and a missing `limit` means 5, or 10 for the query tool; `query_text`, `filter_expr` (the query tool's filter), `semantic_configuration`, `vector`, `vector_field` and `output_fields` reach the invocation unchanged |
| `Server.SearchesTheNamedIndex` | src/azure_search_mcp/server.py:213-229 | the client a search tool uses is bound to the index named in the reply header, on the default endpoint with the default credential; a fresh connector is built exactly when that index is not the default |
| `Server.SearchReply` | src/azure_search_mcp/server.py:223-245 | a search tool replies with the header and then one item per record in backend order; a backend failure escapes `call_tool` as the connector's `ValueError` |
| `Server.ListIndexesReply` | src/azure_search_mcp/server.py:247-254 | whatever the arguments, list-indexes replies with the single item `"Indexes in Azure Search service:\n"` followed by the default index |
| `Server.IndexInfoReply` | src/azure_search_mcp/server.py:256-264 | index-info replies with one item: the name asked for and the JSON of its description with the fixed field list |

## Left out

- The Azure SDK (`SearchClient`, `AzureKeyCredential`): a foreign library. `client.search`, together with iterating over its results, is the `Backend` parameter. The credential is an opaque key.
- The MCP `Server` object, its decorators, the stdio transport and `InitializationOptions`/capabilities: host and I/O plumbing.
- `async`/`await`: each call runs to completion in order, so the methods are synchronous.
- The `click` command line, the environment variables and the startup `print`: configuration I/O and side output.
- `json.dumps` formatting: it is an uninterpreted function from a record to a string.
- Records and the index description are `map`s, which have no key order. The order in which `json.dumps` writes a dict's keys is therefore not modelled; it is part of the uninterpreted `dumps`.
- Query vectors are carried as `seq<real>`, and no arithmetic is done on them.
- Argument values of the wrong type, and explicit JSON `null` values, are not modelled. An argument is either absent or of the type its schema declares. For instance, a `limit` of `null` would make the source drop `top`.
- Exceptions raised inside a search method's `try` other than the backend's are not modelled. An example is `",".join` over non-strings; the types rule these out.
- `dict(result)` copies a record. The model treats the copy as the same value.
- Whether a connector object is new or reused is recorded by `ConnectorChoice`. Building a `SearchClient` has no other effect in the model.
