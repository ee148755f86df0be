# Multitask Chatbot — a Dafny model of its core

This project models the core logic of a Streamlit chatbot that talks to Groq
language models. The model covers six parts:

- **Model selection** (`model_selector.dfy`, module `ModelSelector`). The
  provider → model configuration is flattened into a registry of model
  capabilities. A model is then picked for a task description and
  requirements: filter by minimum context window, score keyword categories,
  add a priority bonus, take the first maximum, and fall back to
  `llama-3.1-70b-versatile`.
- **Chain-of-thought reflection** (`cot_reflection.dfy`, module
  `ChatbotManager`). The model's reply is post-processed. Either the
  `<output>…</output>` answer is extracted, or every configured tag is
  rendered as an icon and a capitalised heading, in configuration order.
- **Database manager** (`database_manager.dfy`, module `DatabaseManager`).
  This covers:
  - connection-parameter validation;
  - the SQL connection string with inserted credentials;
  - the SQL and NoSQL managers' connect, query and disconnect, as classes with
    mutable connection fields;
  - the mapping of driver errors to user messages;
  - the front object's status, last error and connection timestamp.
- **Chat session** (`chat_session.dfy`, module `UIComponents`). This covers:
  - session-state initialisation;
  - keeping the system prompt at the head of the conversation;
  - one chat turn (user message, PDF answer or chatbot answer, streamed reply);
  - reconciling the uploaded-file database with the uploader's current list;
  - the file-type icon lookup.
- **Document conversion** (`document_manager.dfy`, module `DocumentManager`).
  This covers the extension → converter factory and the text that the Excel and
  PowerPoint converters assemble. It also covers what `convert_to_pdf` returns
  for each converter.
- **Web search** (`search_engine.dfy`, module `SearchEngine`). This covers the
  SerpAPI parameter dictionary for each search type and the extraction of the
  organic results.

`outcomes.dfy` holds `Option`/`Result` and a dictionary `get`. `text.dfy` holds
the string operations of Python that the core uses:
- `in` on strings and `str.find`;
- `lower` and `capitalize`;
- `strip`;
- `join` and concatenation of pieces;
- `replace`;
- `str()` of integers.

Everything outside the program is a parameter of the model:
- the Groq completion call is a function from messages to reply text;
- the SerpAPI call is a function from parameters to a JSON answer;
- the PDF renderer is a function from text to bytes;
- the clock is a `Timestamp`;
- the database drivers are the outcomes they report (`Result` values).

The code shows a few behaviours that are modelled as written, not corrected:
- The session guard checks the misspelled key `external_databse`, so
  `external_database` is reset to `[]` on every initialisation.
- A failing second `engine.connect()` in the SQL manager leaves the first
  connection stored, so the manager reports itself connected after a failed
  connect.
- The SQL manager's `connect` quotes a missing `url` key as `'url'` in its
  error message (a `KeyError` turned into text).
- The credentials are inserted with `url.replace('://', …)`, which has no
  count, so a URL holding a second `://` (in a query argument, say) gets
  them there as well.

## Model

| member | source | states |
|---|---|---|
| Text.FindFromSpec | old/V2/chatbot_manager.py:31-32 | the search finds the first occurrence at or after the start position, and reports none exactly when there is no occurrence |
| Text.ContainsIff | app/model_selector.py:57-58 | substring containment (`keyword in text`) holds exactly when the keyword occurs at some position |
| Text.Lower | app/model_selector.py:57-58 | lower-casing keeps the length and maps every character through the ASCII lower-case map |
| Text.Capitalize | old/V2/chatbot_manager.py:35 | `capitalize` upper-cases the first character and lower-cases all the others |
| Text.StripSpec | old/V2/chatbot_manager.py:34 | `strip` yields a result with no whitespace at either end, and it is the input with only whitespace removed at both ends |
| Text.StripKeepsAbsent | old/V2/chatbot_manager.py:39 | stripping cannot create an occurrence of a string that the input did not contain |
| Text.SkipSpaces | old/V2/chatbot_manager.py:34 | the leading whitespace ends at the first non-whitespace character, or at the end of the text |
| Text.TrimEnd | old/V2/chatbot_manager.py:34 | the trailing whitespace starts after the last non-whitespace character of the range |
| Text.ConcatAppend | old/V2/chatbot_manager.py:35 | concatenating pieces distributes over joining the piece lists, which is what repeated `+=` relies on |
| Text.ReplaceFirst | app/database_manager.py:100 | when no occurrence of the pattern starts inside the prefix, `replace` substitutes the occurrence right after it and goes on replacing in the rest of the string |
| Text.ReplaceAbsent | app/database_manager.py:100 | `replace` leaves a string without the pattern unchanged |
| Text.NatToString | app/document_manager.py:53 | `str()` of a number is a non-empty digit string whose decimal value, read left to right, is the number, and which starts with `0` only when it is `"0"` itself |
| Outcomes.Get | app/search_engine.py:28 | a dictionary `get` returns the stored value exactly when the key is present |
| ModelSelector.Capabilities | app/model_selector.py:19-23 | a model's capabilities keep its context window, description and use case as given, and a missing description or use case becomes `''` or `[]` |
| ModelSelector.Insert | app/model_selector.py:19 | a dictionary assignment keeps the registry consistent: a new name goes last and an existing name keeps its place with the new value |
| ModelSelector.ProcessedSnoc | app/model_selector.py:18-23 | processing one more model keeps an earlier KeyError, raises one for a model without a context window, and otherwise inserts the model's capabilities |
| ModelSelector.ProcessProvider | app/model_selector.py:18-23 | the inner loop adds one provider's models exactly as processing its pairs after the earlier ones prescribes, including the KeyError |
| ModelSelector.ProcessModels | app/model_selector.py:15-24 | the loop over providers produces exactly the registry of the flattened configuration processed in order |
| ModelSelector.ProcessedSucceedsIff | app/model_selector.py:19-20 | processing succeeds exactly when every model has a `context_window`; otherwise it fails with a KeyError on the first model without one |
| ModelSelector.ProcessedKeys | app/model_selector.py:16-24 | the registry's names are exactly the model names of the configuration |
| ModelSelector.ProcessedLastWins | app/model_selector.py:17-23 | when a model name appears twice, the later configuration entry wins |
| ModelSelector.OverwriteKeepsPosition | app/model_selector.py:19 | overwriting an existing model keeps its position and the registry size |
| ModelSelector.ScoresOf | app/model_selector.py:45-69 | every entry of the score table is a registry model that meets the window, with its score |
| ModelSelector.ScoresOfComplete | app/model_selector.py:45-69 | every registry model that meets the window has an entry in the score table |
| ModelSelector.ScoresOfOrdered | app/model_selector.py:45-69 | the score table follows registry order: its entries come from strictly increasing registry positions |
| ModelSelector.FirstMaxIndex | app/model_selector.py:75 | the chosen index holds the maximum score, and every earlier entry scores strictly lower (`max` keeps the first maximum) |
| ModelSelector.ArgMaxFirst | app/model_selector.py:75 | the loop finds the first entry with the maximum score |
| ModelSelector.ScoreModel | app/model_selector.py:47-69 | a model is skipped exactly when its window is below the minimum; otherwise its score is 1, plus 2 per matched category, plus the priority bonus |
| ModelSelector.SelectModel | app/model_selector.py:26-75 | `select_model` returns the selection the specification function defines |
| ModelSelector.ScoreBounds | app/model_selector.py:47-69 | every score of a model that is kept lies between 1 and 15 |
| ModelSelector.SelectFromDefault | app/model_selector.py:72-73 | the score table is empty exactly when no model meets the window requirement |
| ModelSelector.SelectFromIsBest | app/model_selector.py:75 | no model that meets the window scores higher than the selected one |
| ModelSelector.SelectFromTieBreak | app/model_selector.py:75 | every qualifying model earlier in registry order than the selected one scores strictly lower |
| ModelSelector.SelectedSpec | app/model_selector.py:26-75 | the full selection: missing requirements mean window 0 and 'balanced'; the default model when nothing qualifies; otherwise a qualifying registry model with the top score and first among ties |
| ModelSelector.NarrowModelNeverSelected | app/model_selector.py:50-53 | a model below the minimum context window is never selected |
| ModelSelector.QualityPrefersLargeWindow | app/model_selector.py:65-67 | an instance of the priority bonus: under 'quality', of two otherwise equal models the one above 30000 tokens is selected |
| ChatbotManager.SearchTag | old/V2/chatbot_manager.py:31-32 | a match's group bounds lie inside the text |
| ChatbotManager.SearchTagSpec | old/V2/chatbot_manager.py:31-32 | the non-greedy DOTALL search takes the leftmost `<tag>` that has a matching close, and the first `</tag>` after it; there is no match exactly when no such pair exists |
| ChatbotManager.SearchTagFound | old/V2/chatbot_manager.py:31-32 | a match starts after the leftmost `<tag>` and ends at the first `</tag>` after it |
| ChatbotManager.SearchTagMissing | old/V2/chatbot_manager.py:31-33 | the search fails exactly when no `<tag>` is followed by a `</tag>` |
| ChatbotManager.SearchTagAt | old/V2/chatbot_manager.py:31-32 | a `<tag>` with none before it, followed by a `</tag>` with none in between, is the match found |
| ChatbotManager.ExtractAt | old/V2/chatbot_manager.py:38-39 | the output shown is the stripped text between the first output pair |
| ChatbotManager.NoOutputPairUnchanged | old/V2/chatbot_manager.py:38-39 | without an `<output>…</output>` pair the reply is returned unchanged |
| ChatbotManager.ExtractWrapped | old/V2/chatbot_manager.py:38-39 | a reply that wraps an answer in `<output>` tags yields the stripped answer, whatever follows it, when no `<output>` starts before the pair and no `</output>` starts inside the answer |
| ChatbotManager.GroupHasNoCloseTag | old/V2/chatbot_manager.py:38 | the captured group never contains `</output>` |
| ChatbotManager.ExtractedHasNoCloseTag | old/V2/chatbot_manager.py:38-39 | whenever an output pair is found, the extracted answer contains no `</output>` |
| ChatbotManager.Pieces | old/V2/chatbot_manager.py:30-35 | there is one rendered piece per configured tag: its section when the tag matches, nothing otherwise |
| ChatbotManager.SectionsAppend | old/V2/chatbot_manager.py:30-35 | the rendering of two tag lists in sequence is the concatenation of their renderings (configuration order is kept) |
| ChatbotManager.SectionsStep | old/V2/chatbot_manager.py:30-35 | each loop step appends exactly that tag's section, or nothing when the tag has no match |
| ChatbotManager.NoMatchingTagIsEmpty | old/V2/chatbot_manager.py:28-36 | when no tag matches, the process view is empty |
| ChatbotManager.FormatProcess | old/V2/chatbot_manager.py:28-36 | the loop's result is the stripped concatenation of one icon-and-heading section per matching tag |
| ChatbotManager.CotReflection | old/V2/chatbot_manager.py:25-39 | show-process mode gives the formatted sections; otherwise the extracted output |
| ChatbotManager.GetResponse | old/V2/chatbot_manager.py:10-23 | the raw completion is returned without reflection; with reflection, the process view or the extracted output |
| DatabaseManager.MissingKeys | app/database_manager.py:31 | a key is reported missing exactly when it is required and absent |
| DatabaseManager.MissingKeysInOrder | app/database_manager.py:31-33 | missing keys are reported in the order of the required list |
| DatabaseManager.ValidateAccepts | app/database_manager.py:26-42 | validation accepts exactly non-empty parameters that hold the keys required for the type (mysql/postgresql: host, username, password, database; sqlite: file_path or database; mongodb: url or host; qdrant: url; other types: nothing more) |
| DatabaseManager.ServerTypeReportsMissing | app/database_manager.py:29-33 | for mysql and postgresql, the error lists every missing key |
| DatabaseManager.ConnectionStringFails | app/database_manager.py:94-101 | building the connection string fails exactly without `file_path` and `url`, or with a username but no password, and it names the missing key |
| DatabaseManager.CredentialsInserted | app/database_manager.py:97-101 | with a username and password, `user:password@` is inserted right after the URL's first `://`, and every later `://` is replaced as well |
| DatabaseManager.CredentialsInsertedOnce | app/database_manager.py:97-101 | a URL with a single `://` gets `user:password@` once, right after it |
| DatabaseManager.CredentialsInsertedTwice | app/database_manager.py:97-101 | a URL with a second `://`, for example in a query argument, gets the credentials inserted there too |
| DatabaseManager.UrlWithoutCredentials | app/database_manager.py:97-101 | without a username, the URL is used as it is |
| DatabaseManager.SqlErrorMessageCases | app/database_manager.py:114-123 | driver messages map to the invalid-credentials, unknown-database and unreachable-server texts exactly when they contain the matching phrase (checked in that order); other messages map to the generic prefix |
| DatabaseManager.SqlConnectWhenConnected | app/database_manager.py:90-91 | connecting while connected returns the existing connection and changes nothing |
| DatabaseManager.SqlConnectSuccess | app/database_manager.py:93-112 | a successful connect stores the returned connection and an engine built from the connection string |
| DatabaseManager.SqlConnectFailure | app/database_manager.py:103-123 | every failure is a ConnectionError with a mapped message; the connection stays set exactly when the first connect had succeeded |
| DatabaseManager.SqlConnectMissingUrl | app/database_manager.py:97-123 | a missing URL surfaces as the generic failure quoting `'url'` |
| DatabaseManager.QueryGuard | app/database_manager.py:125-131 | a query needs a connection; a driver failure is reported with the query-failure prefix, and success passes the row count through |
| DatabaseManager.SqlManager.constructor | app/database_manager.py:83-87 | a new SQL manager is unconnected and has no engine |
| DatabaseManager.SqlManager.Connect | app/database_manager.py:89-123 | the manager's result and new state are those of the connect transition from its old state |
| DatabaseManager.SqlManager.Query | app/database_manager.py:125-131 | a query is refused when unconnected and otherwise follows the driver outcome |
| DatabaseManager.SqlDisconnectSpec | app/database_manager.py:137-144 | a disconnect raises exactly when there is a connection whose close fails or an engine whose dispose fails; it passes on the close error first, then the dispose error; success leaves neither connection nor engine |
| DatabaseManager.SqlManager.Disconnect | app/database_manager.py:137-144 | the result and new state are those of the disconnect transition: the connection is closed and cleared, then the engine is disposed and cleared; a failing close leaves the engine in place |
| DatabaseManager.MongoDefaults | app/database_manager.py:160-169 | a MongoDB target without url, host or port defaults to localhost:27017 |
| DatabaseManager.NoSqlUnsupported | app/database_manager.py:175-181 | an unsupported NoSQL type fails with the wrapped "Unsupported NoSQL database type" message |
| DatabaseManager.NoSqlConnectSuccess | app/database_manager.py:153-181 | a NoSQL connect succeeds exactly for mongodb or qdrant (any case) with a working client, and then keeps that client |
| DatabaseManager.NoSqlManager.constructor | app/database_manager.py:148-151 | a new NoSQL manager is unconnected |
| DatabaseManager.NoSqlManager.Connect | app/database_manager.py:153-181 | the manager's result and new connection are those of the NoSQL connect transition |
| DatabaseManager.NoSqlManager.Query | app/database_manager.py:183-209 | a query is refused when unconnected and otherwise follows the driver outcome |
| DatabaseManager.NoSqlManager.Disconnect | app/database_manager.py:215-223 | the result and new connection are those of the NoSQL disconnect transition: a MongoDB client is closed and the connection cleared; a Qdrant client is dropped without closing |
| DatabaseManager.Database.constructor | app/database_manager.py:11-24 | a validated manager starts disconnected with no error and no timestamp, and routes SQL types to the SQL manager and all others to the NoSQL one |
| DatabaseManager.Database.Create | app/database_manager.py:11-24 | the type is lower-cased, and construction fails with the validation message exactly when validation rejects the parameters |
| DatabaseManager.Database.Info | app/database_manager.py:61-68 | the connection info reports the status text, the database type, the connected flag, the last error and the connection time |
| DatabaseManager.Database.CreateConnection | app/database_manager.py:44-55 | the inner manager connects; success records Connected and the time and clears the error; failure records Failed and the message and re-raises |
| DatabaseManager.Database.Disconnect | app/database_manager.py:70-79 | the inner manager disconnects, and the result and the manager's new state are exactly those of its disconnect transition, so a failure re-raises the manager's own error; success records Disconnected and clears the timestamp; failure records the error |
| UIComponents.SyncedShape | old/V2/ui_components.py:56-60 | after syncing, the first message is the system prompt and the rest are the old messages without a stale system head |
| UIComponents.SyncedIdempotent | old/V2/ui_components.py:56-60 | syncing twice with the same prompt is the same as syncing once |
| UIComponents.SyncedSystemOnlyAtHead | old/V2/ui_components.py:56-60 | syncing keeps system messages confined to the first slot |
| UIComponents.Chunks | old/V2/ui_components.py:86 | a string response is iterated one character per chunk, chunk `i` being character `i` |
| UIComponents.ChunksConcat | old/V2/ui_components.py:85-87 | accumulating the chunks of a string response rebuilds the response |
| UIComponents.Accumulate | old/V2/ui_components.py:85-87 | the streaming loop produces the concatenation of all chunks |
| UIComponents.Files | old/V2/ui_components.py:103 | the current-file list holds each database entry's file, in order |
| UIComponents.AddedSpec | old/V2/ui_components.py:104-112 | exactly the uploads not already stored get a new entry |
| UIComponents.KeptSpec | old/V2/ui_components.py:114-117 | exactly the entries whose file is still uploaded survive the filter |
| UIComponents.ReconciledSpec | old/V2/ui_components.py:103-117 | after reconciliation every entry is for an uploaded file and every upload has an entry; kept entries keep their order and new ones follow in upload order |
| UIComponents.ReconciledIdempotent | old/V2/ui_components.py:103-117 | reconciling again with the same uploads changes nothing |
| UIComponents.Icon | old/V2/ui_components.py:133-134 | the icon is looked up by the lower-cased file type, with the page icon as default |
| UIComponents.IconIgnoresCase | old/V2/ui_components.py:133-134 | two file types that differ only in letter case get the same icon |
| UIComponents.TurnAppends | old/V2/ui_components.py:52-92 | a turn with a prompt appends the user message and then the reply (the PDF answer, or the chatbot's answer to the whole conversation) to the synced conversation |
| UIComponents.ResetStartsOver | old/V2/ui_components.py:52-60 | a reset empties the message list before anything else, so the result is the turn run on an empty conversation: the system prompt plus at most this turn |
| UIComponents.TurnSystemOnlyAtHead | old/V2/ui_components.py:52-92 | a turn keeps the system prompt first and system messages nowhere else |
| UIComponents.Session.constructor | old/V2/ui_components.py:4-14 | a fresh session state is empty |
| UIComponents.Session.InitUI | old/V2/ui_components.py:5-14 | missing keys are initialised and present ones kept, but `external_database` is always reset by the misspelled guard |
| UIComponents.Session.ChatTurn | old/V2/ui_components.py:50-92 | the conversation becomes the turn function's result; the turn fails exactly when the PDF query raises something other than ValueError; nothing else in the session changes |
| UIComponents.Session.UploadFiles | old/V2/ui_components.py:94-118 | the file database becomes the reconciliation of the old database with the uploads; nothing else changes |
| DocumentManager.ExtensionsDisjoint | app/document_manager.py:59-69 | no extension belongs to two converters |
| DocumentManager.GetConverterSpec | app/document_manager.py:59-71 | a converter is returned exactly for the extensions it lists; any other extension fails with "Unsupported file type: " and the extension |
| DocumentManager.UpperCasePdfRefused | app/document_manager.py:66-71 | extension matching is case sensitive: "PDF" is refused |
| DocumentManager.RowLines | app/document_manager.py:52-53 | there is one text line per worksheet row, row `i` giving line `i` |
| DocumentManager.WorkbookTextAppend | app/document_manager.py:49-54 | the workbook text of two sheet lists in sequence is the concatenation of their texts |
| DocumentManager.SheetTextShape | app/document_manager.py:51-54 | a sheet block starts with its `Sheet: name` header and always ends with a blank line; a sheet without rows is the header and one newline |
| DocumentManager.AppendRows | app/document_manager.py:52-53 | the row loop appends each row's tab-joined cell texts and a newline, in order |
| DocumentManager.ExcelText | app/document_manager.py:47-54 | the Excel loop assembles the workbook text, sheet by sheet |
| DocumentManager.WithText | app/document_manager.py:30 | the filtered shapes are exactly those that have a text attribute |
| DocumentManager.ShapeTextsAppend | app/document_manager.py:28-31 | the shape texts of two shape lists in sequence are the concatenation of their texts |
| DocumentManager.TextlessShapesIgnored | app/document_manager.py:30-31 | shapes without text contribute nothing |
| DocumentManager.NoTextNoOutput | app/document_manager.py:27-31 | a presentation without text shapes gives empty text |
| DocumentManager.PowerPointText | app/document_manager.py:26-31 | the slide and shape loops assemble each text shape's text plus a newline, in order |
| DocumentManager.OnlyPdfConverts | app/document_manager.py:13-55 | as written, only the PDF converter returns bytes; every other converter raises AttributeError |
| DocumentManager.ConvertSpec | app/document_manager.py:34-43 | corrected: every converter returns bytes; PDF passes the file through, and every other converter returns exactly the rendering of the text it assembles |
| SearchEngine.SearchParamsSpec | app/search_engine.py:7-24 | engine, key and count are always sent; news, images and videos set `tbm` and keep the query; linkedin and facebook prefix the query with the site; other types send the base entries only; no other key is ever sent |
| SearchEngine.AdjustmentsExclusive | app/search_engine.py:15-24 | no search type both sets `tbm` and restricts the site |
| SearchEngine.OrganicResults | app/search_engine.py:28 | the result is the answer's `organic_results`, or an empty list when it has none |
| SearchEngine.SerpApiSearch.constructor | app/search_engine.py:4-5 | the search engine keeps its API key |
| SearchEngine.SerpApiSearch.BuildParams | app/search_engine.py:8-24 | the parameter dictionary built step by step is the specified one |
| SearchEngine.SerpApiSearch.Run | app/search_engine.py:7-28 | `run` returns the organic results of the answer to the specified parameters, with search type "web" and 10 results by default |

## Left out

- Text.Lower, Text.Capitalize: case mapping covers ASCII letters only. Python's Unicode case folding is not modelled.
- ChatbotManager.SearchTag: tags are taken literally. A tag that contains regular-expression metacharacters would behave differently under `re.search`.
- The Groq client and its completion call (old/V2/chatbot_manager.py:11-18) are a parameter: the reply text, or a function from messages to reply.
- Database drivers (SQLAlchemy engines, PyMongo and Qdrant clients) are represented only by the outcomes they report. Connections are opaque handles.
- `datetime.now()` is a `Timestamp` parameter.
- The NoSQL query dispatch (app/database_manager.py:187-206) is out of scope. It covers JSON parsing, MongoDB find/insert and the Qdrant vector search. Its outcome is a parameter.
- DatabaseManager.QueryGuard: the result of a SQL query is represented by a row count; no result set is modelled.
- Connection parameters are strings. A numeric MongoDB port appears only as a default (`PortNumber(27017)`).
- The unused `self.connection` field of the front manager (app/database_manager.py:14) is not modelled.
- `_text_to_pdf` page layout, image OCR, UTF-8 decoding and workbook/presentation parsing are left out. They are parameters or fields of `Document`.
- DocumentManager.ExcelText: only empty, integer, text and boolean cells are modelled. Float and date cells are left out because their `str()` forms are not modelled.
- `create_model_selector` (app/model_selector.py:77-80) is left out. It reads YAML from a file, which is I/O.
- ModelSelector.SelectModel: requirements are a typed record. A requirements dictionary that lacks a key, which raises KeyError in Python, is not modelled.
- UIComponents.Session.ChatTurn: exceptions raised by the chatbot call itself are not modelled. Neither are Streamlit rendering, placeholders and the 5 ms sleep.
- The sidebar, settings and display methods of UIComponents are Streamlit widget code and are left out. These are `create_sidebar`, `update_system_prompt`, parameter sliders and the display of `display_database` beyond the icon lookup.
- UIComponents.Session.UploadFiles: an uploaded file is a value `Upload(id, …)` and is compared as a whole. The comparison of Streamlit's `UploadedFile` objects lives in Streamlit, which is not part of this model.

## Findings

| source | as written | input that shows it | evidently intended | confidence | as-written member | corrected member |
|---|---|---|---|---|---|---|
| app/document_manager.py:13-55 | `ImageManager`, `TextManager`, `PowerPointManager` and `ExcelManager` call `self._text_to_pdf` (lines 17, 22, 32 and 55), which only `PDFManager` defines (lines 38-43), so they raise AttributeError | any `.txt`, `.png`, `.pptx` or `.xlsx` file passed to its converter's `convert_to_pdf` | the assembled text is rendered to PDF bytes by the shared `_text_to_pdf` | not executed | DocumentManager.OnlyPdfConverts | DocumentManager.ConvertSpec |
