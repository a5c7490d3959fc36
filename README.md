# Agent glue routines of AI-Agenting---Autogen, modelled in Dafny

This repository wires LLM agent frameworks, a Qdrant vector store, a SQL
Server accessor and a key vault together. The multi-agent router in
`autogen.py` is made of framework objects that the repository only
configures, so it is not part of this model. The model covers the small
sequential routines the repository does own. It treats every remote or
library call as a parameter: the embedding service, the Qdrant client, the
database engine, the chat model, `json.loads`, tool execution, `uuid4()`,
`datetime.now()` and the environment.

One module per source file:

- `Chunking` (`chunking.dfy`): `[s[i:i + b] for i in range(0, len(s), b)]`. It serves as both the text chunker and the row batcher. It holds the chunk round-trip, count and bound lemmas.
- `VectorBase` (`vector_base.py`): `generate_embeddings` and `upsert`, as methods with loops proved against spec functions.
- `Qdrant` (`qdrant.py`): collection creation, point mapping, the `str(uuid)` rendering, and search-hit formatting.
- `Sql` (`sql.py`): the batched insert.
  - Each batch is retried after an `OperationalError`, with a wait of 2^k seconds before retry k.
  - The database is an oracle `db(n)`: the outcome of the n-th write attempt.
  - Two loops (`InsertBulkRowsBatch` and `WriteBatch`) are proved equal to recursive spec functions (`InsertFrom` and `RetryLoop`). The properties are proved about those functions.
  - Also `delete_rows`, and the corrected progress line.
- `SqlConn` (`sql_conn.py`): the shared settings holder, as a class.
- `SurveyQuery` (`get_db_data.py`): the two query templates.
- `Lights` (`light.py`): the light table. Its lights are objects whose state `change_state` updates in place, so the list `get_state` handed out earlier shows the change.
- `ToolUse` (`tools.py`): tool lookup, error wrapping, and the one-call or two-call completion flow.
- `SemanticAgent` (`agents/examples/test.py`): configuration from the environment, tool metadata, the planner choice, and the agent class with its tool registry and chat history.
- `Lookup`: `dict.get` with a default and the first element that passes a test (the light search in `light.py` and the tool search in `tools.py`).
- `Values` and `Wrappers`: a JSON-like value, Python's case mapping as far as the routines need it, and Option/Result.

## Model

| member | source | states |
|---|---|---|
| Chunking.PyChunks | agents/vector/vector_base.py:80 | a batch size of 0 is the ValueError of range(); a negative one gives no batches; a positive one gives ceil(len / b) batches that concatenate back to the input |
| Chunking.ChunksFlatten | agents/vector/vector_base.py:80 | the batches concatenated in order give back the text |
| Chunking.ChunksCount | agents/vector/vector_base.py:80-83 | there are ceil(len / batch_size) batches, none exactly when the input is empty |
| Chunking.ChunkAt | database/sql.py:82-83 | batch k is rows [k·b, min(k·b + b, len)), and k·b < len |
| Chunking.ChunkBounds | agents/vector/vector_base.py:80 | every batch is non-empty and at most batch_size long; all but the last are exactly batch_size |
| VectorBase.GenerateEmbeddings | agents/vector/vector_base.py:79-85 | one embedding request per text batch, in order, and one record per batch whose text is the batch and whose embedding is the service's answer for it; a zero batch size raises before any request |
| VectorBase.Upsert | agents/vector/vector_base.py:50-70 | exactly one _upsert_points call, with the collection name and one point per embedded batch in order (i-th uuid4 and datetime.now values, payload text equal to the batch) |
| VectorBase.EmbeddedTextsAreChunks | agents/vector/vector_base.py:80-85 | the records' texts are the batches and concatenate back to the text |
| VectorBase.UpsertPointsCoverText | agents/vector/vector_base.py:57-70 | the points' payload texts are the batches in order and concatenate back to the data; each point keeps its batch's embedding, id and timestamp; no points exactly for empty data |
| Qdrant.LookupDistance | agents/vector/qdrant.py:48 | Distance[name] finds the member with exactly that name, or none when no member has it |
| Qdrant.CreateCollection | agents/vector/qdrant.py:29-60 | an existing name returns without creating; otherwise the call fails exactly when no Distance member is the upper-cased name, with the ValueError message, and otherwise exactly one creation request is made, for that name, size and the Distance member so named |
| Qdrant.DistanceCaseInsensitive | agents/vector/qdrant.py:47-51 | names with the same upper case succeed or fail together and create the same collection |
| Qdrant.DefaultDistanceIsCosine | agents/vector/qdrant.py:29-60 | the default "Cosine", and "cosine", select the COSINE metric |
| Qdrant.ExistingCollectionIgnoresDistance | agents/vector/qdrant.py:42-51 | for an existing collection an invalid distance is not an error; for a new one it is |
| Qdrant.ParseHexOfHex | agents/vector/qdrant.py:77 | the 32 hex digits of a UUID can be read back to its value |
| Qdrant.UuidString | agents/vector/qdrant.py:77 | str(uuid) is 36 characters with hyphens at positions 8, 13, 18 and 23 |
| Qdrant.UuidStringInjective | agents/vector/qdrant.py:77 | distinct UUIDs give distinct id strings |
| Qdrant.ToPointStruct | agents/vector/qdrant.py:76-83 | id is str(point.id), the vector is the point's embedding, and the payload has exactly the keys timestamp (the isoformat text) and text |
| Qdrant.UpsertPoints | agents/vector/qdrant.py:71-90 | no client call exactly for an empty list; otherwise one call with one PointStruct per point, in order |
| Qdrant.UpsertIdsDistinct | agents/vector/qdrant.py:75-85 | points with distinct uuids are sent with distinct ids |
| Qdrant.FormatHit | agents/vector/qdrant.py:124-129 | id and score are passed through, text is payload['text'] or '' when absent, metadata is the payload without the text key |
| Qdrant.FormatHitKeepsPayload | agents/vector/qdrant.py:127-128 | the metadata with the text put back is the payload: the formatting loses nothing |
| Qdrant.FormatUpsertedPoint | agents/vector/qdrant.py:124-129 | a hit on a point this wrapper upserted gives its text back and only the timestamp as metadata |
| Qdrant.FormatResults | agents/vector/qdrant.py:122-132 | one formatted record per hit, same order |
| Qdrant.Search | agents/vector/qdrant.py:95-132 | [] and no search when the embedding result is None or empty; otherwise one search with the first vector, limit and threshold, and the hits formatted in order |
| Qdrant.SearchByVector | agents/vector/qdrant.py:134-162 | one search with the given vector, and the hits formatted as search formats them |
| Qdrant.UpsertPathCoversText | agents/vector/qdrant.py:71-90 | from text to client call: nothing is sent for empty text; otherwise the sent payload texts are the text batches in order |
| Values.UpperChar | agents/vector/qdrant.py:48 | str.upper gives an ASCII capital exactly for ASCII letters and for dotless i and long s |
| Values.LowerChar | agents/examples/test.py:49 | the model lowers exactly the ASCII capitals, each to the small letter at the same place in the alphabet, and leaves every other character unchanged; so the result is a small ASCII letter exactly for ASCII letters |
| Sql.WriteBatch | database/sql.py:84-104 | the inner while loop does exactly what RetryLoop from retry 0 says: status, events and outcomes used |
| Sql.InsertBulkRowsBatch | database/sql.py:72-106 | the whole for loop does exactly what BulkInsert says: batch size 0 raises ValueError, a negative one writes nothing, otherwise the batches in order until one raises |
| Sql.RetryLoopEvents | database/sql.py:84-104 | one batch's events alternate attempt and wait: attempt j carries retry counter j and the j-th outcome, the wait before retry k is 2^k seconds, and there are 1 to max_retries + 1 attempts |
| Sql.RetryLoopOutcome | database/sql.py:86-99 | every outcome but the last was an OperationalError; the batch completes exactly when the last write succeeded; a raised error is the last outcome and is either not an OperationalError or the one past max_retries |
| Sql.RetriesExhausted | database/sql.py:93-99 | max_retries + 1 OperationalErrors in a row re-raise the last one after exactly max_retries + 1 attempts |
| Sql.RetryLoopWrites | database/sql.py:86-91 | among the attempts the write oracle reports as successful, a batch appears once if it completes and not at all otherwise |
| Sql.InsertFromWrites | database/sql.py:82-91 | from offset i on, a completed run wrote exactly the batches of the remaining rows, in order |
| Sql.BulkInsertWritesEveryRowOnce | database/sql.py:82-91 | in a completed insert the attempts the write oracle reports as successful are the batches [i, min(i + b, len)) in order, each once; together they are the data; there are ceil(len / b) of them |
| Sql.NothingToWrite | database/sql.py:82-86 | empty data, or a negative max_retries, means no attempt and a normal return |
| Sql.RetryLoopDiscipline | database/sql.py:84-104 | one batch's events obey the retry discipline |
| Sql.BulkInsertDiscipline | database/sql.py:82-104 | over the whole call each batch starts at retry 0, retry k follows a 2^k-second wait after an OperationalError of the same batch, and no counter passes max_retries |
| Sql.RetryLoopLast | database/sql.py:97-99 | a raised batch ends with the failing attempt, whose outcome is the raised error |
| Sql.BulkInsertStopsAtError | database/sql.py:82-99 | a raised database error is the last attempt's outcome and no later batch was attempted |
| Sql.DeleteQuery | database/sql.py:116 | the statement's length is the two names' plus the fixed text |
| Sql.DeleteQueryRoundTrip | database/sql.py:116 | table name (without spaces) and condition are read back from the statement |
| Sql.DeleteRows | database/sql.py:109-120 | delete_rows issues one DELETE FROM statement, from which a space-free table name and the condition are read back unchanged |
| Sql.ProgressAsWrittenOverCounts | database/sql.py:90 | as written, 1000 rows in batches of 500 are two batches but announced as "2/3" |
| Sql.ProgressLabelCounts | database/sql.py:90 | corrected: the batch at row k·b is announced as k + 1 of the actual number of batches |
| SqlConn.SqlConnectionSettings.constructor | database/sql_conn.py:4-7 | every setting starts as None |
| SqlConn.SqlConnectionSettings.SetConfig | database/sql_conn.py:10-14 | all four settings are overwritten at once |
| SqlConn.SqlConnectionSettings.GetConfig | database/sql_conn.py:17-18 | the settings are read as (HOST, DATABASE, USER, PASSWORD), unchanged |
| SqlConn.LastWriteWins | database/sql_conn.py:4-18 | four Nones before any write; after two writes, exactly the second |
| SurveyQuery.SelectQuery | tools/get_db_data.py:5-30 | None or "" selects the survey-only query; any other category selects the survey-and-category query |
| SurveyQuery.GetSurveyData | tools/get_db_data.py:3-31 | exactly one query is run and its result returned as JSON |
| SurveyQuery.SurveyRoundTrip | tools/get_db_data.py:6-17 | the survey name sits verbatim between the fixed text and is read back |
| SurveyQuery.UnescapedSurveyName | tools/get_db_data.py:16-29 | nothing is escaped: a survey name carrying its own quote and category clause gives the category query |
| SurveyQuery.QuoteFreeQueriesDiffer | tools/get_db_data.py:5-30 | for quote-free names the two branches never give the same statement |
| Lookup.FirstWhere | agents/examples/light.py:50-51 | the position of the first light that passes the test (here: has the id), or none exactly when no light passes it |
| Lookup.FirstWhereSameTests | agents/examples/light.py:50-51 | two tables whose lights agree on the test have the same first match, so a state change never moves it |
| Lights.LightsPlugin.constructor | agents/examples/light.py:23-27 | lights 1 Table Lamp off, 2 Porch light off, 3 Chandelier on, as distinct objects |
| Lights.LightsPlugin.GetState | agents/examples/light.py:34-38 | the table itself is returned |
| Lights.LightsPlugin.ChangeState | agents/examples/light.py:44-54 | the first light with the id is switched in place and returned; an unknown id returns None and changes nothing; the lights stay distinct objects |
| Lights.ChangedOnlyFirstMatch | agents/examples/light.py:50-54 | length, ids and names are kept; only the first match changes and takes the new state; an unknown id changes nothing |
| Lights.ChangedLastWins | agents/examples/light.py:50-53 | a later change of the same light overrides an earlier one |
| Lights.InitialLightsLookup | agents/examples/light.py:23-27 | lookups in the initial table, and switching the porch light on |
| Lights.StateIsShared | agents/examples/light.py:34-53 | a table obtained from get_state before change_state shows the change |
| Lookup.GetOr | agents/examples/test.py:45-49 | os.getenv and dict.get with a default: the stored value when the key is present, the default otherwise |
| ToolUse.ExecuteToolCallResult | multi_agert_routing/examples/tools.py:84-97 | a missing tool is the failed assertion; otherwise a result with the call's id and the tool's name that is an error exactly when parsing or running raised, carrying str(e), and the rendered value otherwise |
| ToolUse.ExecuteAll | multi_agert_routing/examples/tools.py:71-73 | results in call order, one per call, each the one its own call gives; or the error of the first call whose tool is missing |
| ToolUse.ExecuteAllKeepsCallIds | multi_agert_routing/examples/tools.py:71-73 | the i-th result carries the i-th call's id |
| ToolUse.ExecuteAllFindsEveryTool | multi_agert_routing/examples/tools.py:87-88 | all calls produce results exactly when every called name is a tool's |
| ToolUse.HandleUserMessage | multi_agert_routing/examples/tools.py:57-82 | first call with the system and user messages and the tools; text is returned after that one call; otherwise the results and a second call without tools whose session ends with the assistant's calls and then the results |
| ToolUse.SumOfNumberCall | multi_agert_routing/examples/tools.py:29-41 | a sum_of_number call is dispatched to the second tool and answers number1 + number2 with the call's id |
| SemanticAgent.FromEnv | agents/examples/test.py:38-50 | int() failing raises before float(), and the result is a configuration exactly when both succeed; endpoint, key and deployment are the unset-or-value of their variables; tokens and temperature are the parsed values; defaults for the API version and planner type; verbose iff VERBOSE, lower-cased, is "true" |
| SemanticAgent.VerboseOnlyForTrue | agents/examples/test.py:49 | when both numbers parse, a configuration is returned, and its verbose is off when VERBOSE is unset, and on exactly for a four-letter setting that lower-cases to "true" |
| SemanticAgent.NewAgentTool | agents/examples/test.py:56-70 | parameters default to {} and the plugin name to name + "_plugin" when None or empty |
| SemanticAgent.ParamFrom | agents/examples/test.py:76-81 | missing description, default and type become "", None and "string" |
| SemanticAgent.MetadataDescribesTool | agents/examples/test.py:83-89 | the metadata names the tool and its plugin, is not semantic, and has one entry per parameter, in order, each built from that parameter's info dict with the "", None and "string" defaults |
| SemanticAgent.ToKernelFunctionMetadata | agents/examples/test.py:72-90 | the loop builds exactly that metadata |
| SemanticAgent.ToolString | agents/examples/test.py:92-93 | "Tool: " then the name, " - ", then the description |
| SemanticAgent.WeatherToolMetadata | agents/examples/test.py:300-315 | the example tool: plugin get_weather_plugin, location's default None, unit's default celsius |
| SemanticAgent.AddPlanner | agents/examples/test.py:162-170 | always a SequentialPlanner; the fallback is logged exactly when the type is not "sequential" in any case |
| SemanticAgent.WindowIsLastTen | agents/examples/test.py:247-251 | at most the last 10 entries, in order, ending with the newest; roles "user" and "assistant" only, "user" exactly for user entries |
| SemanticAgent.WindowSlides | agents/examples/test.py:247 | once ten entries are kept, a new one pushes the oldest out |
| SemanticAgent.SemanticKernelAgent.constructor | agents/examples/test.py:99-131 | no tools, empty history, and a SequentialPlanner whatever the configured type |
| SemanticAgent.SemanticKernelAgent.AddTool | agents/examples/test.py:172-203 | the tool is stored under its name, replacing an earlier one of that name, whether or not the kernel registration that follows succeeds; the registration (plugin name and metadata) is appended to the log of add_plugin calls exactly when it succeeds |
| SemanticAgent.SemanticKernelAgent.Ask | agents/examples/test.py:225-263 | the query is recorded first; planner when there is a planner and a tool, else the chat service with the window; the answer is recorded only on success, so history grows by exactly user then assistant |
| SemanticAgent.FirstQuestions | agents/examples/test.py:233 | because the planner is always set, a fresh agent asks the chat service until a tool is added and the planner afterwards, even when the tool's kernel registration failed |

## Left out

- autogen.py's agent roster, selector and termination policy: they are framework objects, configured but not implemented here.
- Printing and logging: all `print` and `logger` calls, including the progress line of the bulk insert. That line is modelled only as the label function in the finding below.
- `time.sleep`: only the wait lengths are modelled, as `Backoff` events.
- `asyncio.gather` concurrency: the tool calls are executed one after another, and only the order of the results is kept.
- ToolUse.ExecuteAll: when several called tools are missing, it reports the first of them in call order. It does not model that the other calls' tools may still run concurrently.
- Floating point:
  - embedding vectors are opaque `Embedding` handles;
  - scores and the temperature are reals passed through;
  - rounding is not modelled;
  - the `Value` type has no float case, so a float in `json.loads` tool arguments or in a Qdrant payload cannot be represented.
- Failures of the outside services: the embedding service (`vector_base.py`, `qdrant.py` search), the Qdrant client (collection listing and creation, upsert, search), `fetch_query_data` and `model_client.create` are each taken always to answer. An exception from any of them, which the source propagates unchanged, is not modelled. For example, an embedding failure on a later batch would stop `upsert` before its `_upsert_points` call. The database write, tool argument parsing and tool runs, the planner, the chat completion and `add_tool`'s kernel registration (`KernelFunction.from_native_method` and `kernel.add_plugin`) do model failure.
- Default arguments: every parameter is passed explicitly. The source's defaults are not modelled: `batch_size=500` and `max_retries=3` of `insert_bulk_rows_batch`, `limit=10` and `score_threshold=0.7` of `search` and `search_by_vector`, and `batch_size=BATCH_SIZE` of `upsert` and `generate_embeddings`, whose value lives in a `config` module that is not part of this model.
- `uuid4()`, `datetime.now()`, `json.loads`, `int()` and `float()` are parameters. `isoformat()` is modelled as the timestamp's text.
- The Qdrant `Distance` enumeration belongs to the client library. Its members are taken to be COSINE, EUCLID, DOT and MANHATTAN.
- Values.UpperChar: only ASCII letters and the two non-ASCII characters whose upper case is one ASCII letter are mapped. That is exact for whether a Distance member matches.
- Values.LowerChar: only the ASCII capitals are mapped. Python also lowers non-ASCII characters, among them U+212A KELVIN SIGN to the ASCII letter 'k'; neither "true" nor "sequential" contains a 'k', so the comparisons come out the same.
- Dictionary order: maps keep no order, so the key order of `metadata` and payloads is not modelled. Parameter dicts are ordered sequences of pairs.
- Class-level sharing: `LightsPlugin.lights` and the `SQLConnectionSettings` variables are one per process. Each is modelled as one object standing for that shared state.
- Lights.LightsPlugin.ChangeState: requires the table's lights to be distinct objects. The class body's table satisfies this, as the constructor proves.
- Database access itself is not part of this model:
  - the connection string, `fetch_query_data`, `insert_single_row`, `insert_bulk_rows` and `close_connection`;
  - the DataFrame (modelled as a sequence of rows);
  - `delete_rows`' execution and its row count.
- Sql.RetryLoopWrites, Sql.BulkInsertWritesEveryRowOnce: an attempt whose outcome is an `OperationalError` is taken to have written nothing. A connection lost after `to_sql` committed but before the commit was acknowledged would make the retry write the batch a second time; the write oracle does not model such partial outcomes.
- Sql.WriteBatch: a failure to connect counts as one more write outcome of the oracle, as `engine.connect()` sits inside the same try block.
- `add_tools_from_module`, `save_chat_history` and `load_chat_history` are module import and file I/O. A loaded history may hold any role, which is why roles are strings.
- Kernel and service construction (`_initialize_kernel`, `_add_azure_ai_service`) are framework calls.
- The script parts of `light.py` and `tools.py` are not modelled: the `main` loops, `get_stock_price` (random) and `save_code_to_file` (file write).
- A second completion that is not text is returned as it is, as the source does.

## Findings

| source | as written | input that shows it | evidently intended | confidence | as-written member | corrected member |
|---|---|---|---|---|---|---|
| database/sql.py:90 | the progress total is `len(data) // batch_size + 1` | 1000 rows with batch_size 500: two batches, announced "1/3" and "2/3" | the total is the number of batches, ceil(len(data) / batch_size) | high (not executed) | Sql.ProgressAsWrittenOverCounts | Sql.ProgressLabelCounts |
