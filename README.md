# Gems agent: a Dafny model of its core

The Gems agent is a small web back end. It manages agent profiles ("gems"). Each
profile has a system prompt, a list of tools, a temperature and an optional model
override. A profile can also have a knowledge base of uploaded files that has been
chunked and embedded. A chat turn works in five steps:

1. It builds a conversation from the profile's prompt and the request messages.
2. It adds the best-matching knowledge-base snippets.
3. It asks a language model.
4. If the reply asks for a tool in the in-band JSON form, it runs that tool,
   feeds the result back and asks the model a second time.
5. It answers.

This project models that core, one module per source file:

- `Models` covers the records.
- `Store` covers the JSON profile store, as a class whose `gems` field is the file.
- `Kb` covers chunking, ingestion, status, retrieval and context rendering. A profile's
  data directory is a `KnowledgeBase` object.
- `Ranking` covers the descending arg-sort that retrieval uses.
- `Llm` covers:
  - backend choice;
  - sanitising the text sent for embedding;
  - the embedding fallback chain;
  - picking the chat model.
- `Tools` covers the registry and the restricted calculator.
- `ToolCall` covers the regular expression that detects tool calls.
- `Api` covers:
  - the chat endpoint;
  - the defaults of `create_gem`;
  - registering `kb_search` after an upload;
  - choosing the files an upload hands to ingestion.

`Wrappers` holds `Option` and `Result`. `PyText` holds the Python string semantics
the model needs: `str.split`, `str.join`, `str.strip`, `str.isspace` and slicing.

Everything outside the process is a function parameter. This covers:

- the chat and embedding HTTP providers;
- `ast.parse`;
- float arithmetic;
- the cosine score;
- the `:.3f` formatter;
- the web search.

Environment variables become a `Config` value. A method that has a loop in the source
keeps that loop. It is proved equal to a specification function. The lemmas about that
function state what the source promises.

## Model

| member | source | states |
|---|---|---|
| Models.ParseRole | app/models.py:4 | an accepted role literal is the name of the role it yields |
| Models.RoleLiterals | app/models.py:4 | exactly the four literals "system", "user", "assistant", "tool" are accepted, and each role's name round-trips |
| Models.ParseToolsMode | app/models.py:35 | an accepted mode literal is the name of the mode it yields |
| Models.ToolsModeLiterals | app/models.py:35 | exactly "off" and "auto" are accepted |
| Models.Defaults | app/models.py:10-40 | omitted fields get the declared defaults: the helpful-assistant prompt, no tools, temperature 0.2, no model, tools mode "auto", no tool in a response |
| Store.FirstMatch | app/store.py:80-86 | the position of the first profile with the id, no earlier one has it, and none is found exactly when no profile has it |
| Store.Without | app/store.py:93 | the kept profiles are exactly those with another id, and the list does not grow |
| Store.GemStore.SaveAll | app/store.py:67-69 | the file becomes the given list and one write is counted |
| Store.GemStore.AddGem | app/store.py:71-75 | the profile is appended at the end, saved once and returned |
| Store.GemStore.UpdateGem | app/store.py:77-89 | only the first match is patched, the patched profile is returned, and the file is saved exactly when something matched |
| Store.GemStore.DeleteGem | app/store.py:91-97 | reports true exactly when some profile had the id, then keeps the others in order and saves; otherwise nothing changes and nothing is saved |
| Store.GemStore.GetGem | app/store.py:99-103 | returns the first profile with the id |
| Store.UpdateTouchesFirstMatchOnly | app/store.py:80-86 | an update keeps the length and every id, rewrites the first match and nothing else, and is the identity when nothing matches |
| Store.PatchFields | app/store.py:82-84 | a patch overwrites exactly its non-None fields, the empty patch changes nothing, and patching twice is patching once |
| Store.ModelOverrideSticks | app/store.py:83 | a model override cannot be cleared by an update, because None values are dropped from the patch |
| Store.WithoutConcat | app/store.py:93 | deleting distributes over concatenation, so the kept profiles stay in order |
| Store.WithoutNoMatch | app/store.py:93-95 | deleting an id no profile has leaves the list unchanged |
| Store.DeleteShortens | app/store.py:93-97 | the list gets shorter exactly when some profile has the id |
| Store.FindGemFirst | app/store.py:99-103 | a profile is found exactly when one has the id, and it is the first such profile |
| Kb.Step | app/kb.py:34 | the stride is at least 1 and is size - overlap whenever that is positive |
| Kb.Chunk | app/kb.py:29-38 | the loop returns the specified chunk sequence, including the empty result for text without words |
| Kb.Slide | app/kb.py:33-38 | the while loop emits one window per start 0, step, 2·step, … below the word count |
| Kb.ChunksFromClosedForm | app/kb.py:35-37 | window j starts at word i + j·step, and there are ceil((n - i)/step) of them |
| Kb.CeilingCharacterisation | app/kb.py:35 | a window with index m exists exactly when its start m·step is inside the text |
| Kb.ChunksLength | app/kb.py:29-38 | the number of chunks is ceil(words / step) |
| Kb.ChunkAt | app/kb.py:36 | chunk j is the space-joined window starting at word j·step |
| Kb.ChunkCount | app/kb.py:30-38 | there are no chunks exactly when there are no words; otherwise the last start is inside the text and one more step would leave it |
| Kb.ChunkWords | app/kb.py:36 | for a positive size, chunk j splits back into exactly words j·step up to min(n, j·step + size): never empty and never more than size words |
| Kb.WindowWords | app/kb.py:36 | a window inside the text splits back into its words |
| Kb.ChunkCoverage | app/kb.py:33-38 | with a positive size and a non-negative overlap every word lies in some chunk, and the last chunk reaches the final word |
| Kb.FileRecords | app/kb.py:52-53 | one record per chunk of the file |
| Kb.ChunkFile | app/kb.py:52-53 | the inner loop yields one record per chunk, tagged with the file name and numbered from 0 |
| Kb.FileRecordsAppend | app/kb.py:52-53 | appending a chunk appends its record, numbered with the count so far |
| Kb.IngestRecordsOfOne | app/kb.py:52-53 | the records of one upload are its chunks in order, with the file as source and `i` counting from 0 |
| Kb.AssembleConcat | app/kb.py:47-53 | the records of a list of uploads come file after file |
| Kb.AssembleEmpty | app/kb.py:45-56 | there are no records exactly when no upload yields a chunk |
| Kb.IngestRecordsEmpty | app/kb.py:56 | an ingestion writes no records exactly when no upload has a word of text |
| Kb.KnowledgeBase.CopyAndChunk | app/kb.py:45-53 | every file is copied into `files/`, the copied names are listed in order, and the records are collected; the index is untouched |
| Kb.KnowledgeBase.Ingest | app/kb.py:40-67 | the empty corpus writes empty artifacts and reports 0 chunks; otherwise the index is replaced by the chunk records and their embeddings, in the same order, or is left untouched when embedding fails; after success the status reports the chunk count |
| Kb.KnowledgeBase.HasIndex | app/kb.py:69-71 | both `index.npz` and `meta.json` exist; Kb.KnowledgeBase.Status reports it as `indexed`, Kb.KnowledgeBase.Query answers no results without it, and Api.RetrievalGate skips retrieval without it |
| Kb.KnowledgeBase.Status | app/kb.py:69-87 | indexed exactly when both artifacts exist; the chunk count is the metadata's length when that file is readable and 0 otherwise; the files are those in the folder |
| Kb.Sims | app/kb.py:98 | one score per stored row, each the score of that row against the query vector |
| Kb.KnowledgeBase.Query | app/kb.py:89-103 | no index gives no results; otherwise the missing or unreadable artifact errors, an empty matrix gives no results, and retrieval embeds the question, scores the rows and ranks them |
| Kb.RankProperties | app/kb.py:99-103 | for k ≥ 0: min(k, rows) distinct rows with their text, source and raw score, best first, and no row left out scores higher than a row taken; an index error exactly when a selected row has no metadata |
| Kb.RetrieveEmptyMatrix | app/kb.py:95-96 | an empty matrix gives no results without consulting the embedding |
| Kb.ContextRows | app/kb.py:108-111 | one block per snippet, block i carrying number i + 1 |
| Kb.BuildContext | app/kb.py:105-112 | the context is empty exactly when there are no snippets |
| Kb.BuildContextOne | app/kb.py:108-112 | one snippet gives the header followed by block [1] |
| Kb.BuildContextAppend | app/kb.py:108-112 | each further snippet adds a blank line and the next numbered block |
| Ranking.Insert | app/kb.py:99 | an insertion step adds exactly one index |
| Ranking.SortDesc | app/kb.py:99 | the sort is a permutation of its input |
| Ranking.ArgSortDesc | app/kb.py:99 | every index refers to a row |
| Ranking.InsertDescending | app/kb.py:99 | inserting keeps the order descending by score |
| Ranking.SortDescending | app/kb.py:99 | the sort is descending by score |
| Ranking.ArgSortIsRanking | app/kb.py:99 | the arg-sort lists every row exactly once, best score first |
| Ranking.TopKProperties | app/kb.py:99 | the first k of the ranking are min(k, n) distinct rows, best first, and none left out beats one taken |
| Llm.PickBackend | app/llm.py:31-37 | the backend is "ollama" or "openai", and "openai" exactly when that name was asked for (or is the default) and a key is set |
| Llm.PickBackendCases | app/llm.py:31-37 | an absent and an empty name both fall back to the default; without a key, or for any other non-empty name, the local backend is used |
| Llm.ReplaceControls | app/llm.py:40-44 | no control character of the class survives the substitution |
| Llm.SanitizeIsNormalized | app/llm.py:41-50 | the regex pipeline equals joining the words of the control-free text, with "." for nothing left and truncation to max_len |
| Llm.SanitizeProperties | app/llm.py:41-50 | for a positive bound: the result is non-empty and at most max_len long; it has no control characters or leading spaces, and no whitespace but single plain spaces; it is "." when there are no words, and otherwise a prefix of the normalised text |
| Llm.SanitizeKeepsWords | app/llm.py:45-49 | without truncation every word is kept, in order |
| Llm.ChatTarget | app/llm.py:55-64 | the chat goes to the picked backend, with the override as model when given, else that backend's configured model |
| Llm.Zeros | app/llm.py:146 | the last-resort vector has the requested length and is all zeros |
| Llm.Fallbacks | app/llm.py:122 | the fallback list omits the primary model and keeps exactly the other candidates |
| Llm.FallbackChain | app/llm.py:121-122 | the fallbacks for each primary model, in order |
| Llm.SanitizeAll | app/llm.py:107 | every text is sanitised, in order |
| Llm.TryModel | app/llm.py:124-133 | the loop over the two request fields equals the specified attempt |
| Llm.TryModelOrder | app/llm.py:126-133 | the `prompt` field is tried first and its non-empty vector wins; otherwise the `input` reply is taken; an HTTP failure stops the attempt |
| Llm.EmbedOllama | app/llm.py:135-148 | the nested loops equal the specified per-text chain |
| Llm.Embed | app/llm.py:95-148 | embedding equals the specification: the hosted batch when that backend is chosen and a key is set, else the local per-text chain |
| Llm.EmbedOne | app/llm.py:151-152 | the first vector of a one-text batch; an empty batch reply is an index error |
| Llm.EmbedAllPointwise | app/llm.py:135-148 | the local branch succeeds exactly when every text's chain succeeds, and then yields one vector per text in order |
| Llm.EmbedAllStopsAtFailure | app/llm.py:127-128 | once a request fails, the whole batch fails with that error |
| Llm.ItemVectorNonEmpty | app/llm.py:143-147 | every locally emitted vector is non-empty |
| Llm.PrimaryFirst | app/llm.py:137-138 | the primary model's non-empty answer is used |
| Llm.ZeroVectorOnlyWhenAllEmpty | app/llm.py:137-146 | the chain finds nothing exactly when every model answers with nothing |
| Llm.NoKeyMeansLocal | app/llm.py:103-105 | without a key embedding always takes the local path |
| Llm.LocalEmbedOnePerText | app/llm.py:107-148 | on the local path every input text gets exactly one non-empty vector, the one for its own sanitised text |
| Tools.Calculator | app/tools.py:29-35 | `expr = value` when parsing and evaluation succeed, otherwise "Calculator error: " and the message |
| Tools.Lookup | app/tools.py:51-60 | exactly "calculator" and "web_search" are registered |
| Tools.ListTools | app/tools.py:56-57 | the names are strictly sorted and are exactly the registered ones |
| Tools.RunTool | app/tools.py:59-62 | an unregistered name gets "Unknown tool: NAME" |
| Tools.CallRunTool | app/tools.py:58-62 | a call with both arguments positional fails with a TypeError exactly when it passes any keyword (an unknown name is an unexpected keyword, a parameter name gets multiple values); without keywords it is `run_tool` |
| Tools.FloorDivMod | app/tools.py:8-9 | `//` and `%` on ints follow Python: q·b + r = a, with the remainder on the divisor's side |
| Tools.NumericConstants | app/tools.py:13-16 | a numeric constant evaluates to itself, and a bool counts as a number |
| Tools.Eval | app/tools.py:12-27 | a successful evaluation means the tree holds no refused node |
| Tools.EvalFailsAtFirstFault | app/tools.py:12-27 | when the arithmetic does not raise, evaluation fails exactly on trees with a refused node, with the first refusal's message |
| Tools.EvalIntegerExact | app/tools.py:6-27 | integer expressions with +, -, *, //, % and unary minus are computed exactly |
| Tools.RefusalOrder | app/tools.py:17-26 | a unary plus is refused before its operand is looked at, while a disallowed binary operator is refused only after both operands evaluate |
| Tools.CalculatorIntegerReplies | app/tools.py:29-33 | "2+2 = 4" and "-7//2 = -4" |
| Tools.CalculatorBoolOperand | app/tools.py:15 | "True+1 = 2" |
| Tools.CalculatorRefusals | app/tools.py:23-35 | a unary plus and a string literal become error replies |
| Tools.RunToolUnknown | app/tools.py:59-62 | an unknown name is answered without touching any tool |
| Tools.RunToolKnown | app/tools.py:59-63 | each registered name runs its tool on the input |
| Tools.KbSearchIsNotRegistered | app/tools.py:51-62 | `kb_search` is not a registered tool, so running it gives the unknown-tool reply |
| Tools.GemIdKeywordRejected | app/tools.py:59 | the call with `gem_id=` always raises the TypeError |
| Tools.ParameterKeywordRejected | app/tools.py:58 | passing `tool_input=` beside the positional input raises the multiple-values TypeError |
| ToolCall.SearchFrom | app/main.py:260-263 | the result is the match at the leftmost start position that has one, and none exactly when no position matches |
| ToolCall.Search | app/main.py:260-263 | `re.search` over the whole reply: no match exactly when no position matches, otherwise the match at the leftmost position that has one |
| ToolCall.Detect | app/main.py:260-266 | a call is detected exactly when the pattern matches, and its name and input have no whitespace at either end |
| ToolCall.SkipSpacesStops | app/main.py:261 | each `\s*` consumes the maximal run of whitespace |
| ToolCall.NameEndStops | app/main.py:261 | the name group is the maximal run of characters other than a backslash or a quote |
| ToolCall.InputEndLeast | app/main.py:261 | the lazy input group ends at the first position where the closing tail matches, and fails only when it matches nowhere |
| ToolCall.NoBackslashNoMatch | app/main.py:260-263 | text without a backslash never matches |
| ToolCall.PlainJsonNotDetected | app/main.py:260-264 | the call written as plain JSON is not detected |
| ToolCall.EscapedCallDetected | app/main.py:260-263 | the call with escaped quotes is found with exactly its name and input |
| Api.ChatTurn | app/main.py:229-280 | an unknown profile gives a 404 and makes no model call; otherwise the turn is the specified one |
| Api.BuildPrompt | app/main.py:235-250 | the conversation built step by step is the specified first conversation, or the retrieval failure |
| Api.Opening | app/main.py:235-241 | the system message first, then every request message in order |
| Api.Respond | app/main.py:253-280 | the answer and the model calls are the specified reply |
| Api.RunToolRound | app/main.py:268-277 | the tool round grows the conversation by the first reply and the tool message, then asks again |
| Api.ToolsInstruction | app/main.py:16-21 | the instruction is the tools line (the names joined by ", ") followed by the fixed body; Api.SystemPromptExtension places its tools line in the system message and Api.ExampleCallIsPlain shows its example is plain JSON |
| Api.SystemPromptExtension | app/main.py:235-237 | the system message extends the profile prompt; it differs from it exactly when tools are offered, and then a blank line and the comma-joined tool list follow |
| Api.ExampleCallIsPlain | app/main.py:16-21 | the instruction shows the call as plain JSON |
| Api.LastUserContentIsLastUser | app/main.py:244 | the query is the content of the last user message, and "" when there is none |
| Api.PromptShape | app/main.py:239-250 | the first conversation is the system message, then the request messages unchanged, then at most one more system message |
| Api.RetrievalGate | app/main.py:244-245 | without a query or without an index the knowledge base plays no part |
| Api.RetrievalContext | app/main.py:246-250 | at most four snippets; the context message appears exactly when some snippet was returned |
| Api.ReplyCalls | app/main.py:253-280 | one or two model calls, the first on the built conversation; a second only after a tool ran, on that conversation plus the first reply and the tool result; the answer is the last reply; a tool is reported exactly when two calls were made |
| Api.NoCallOneReply | app/main.py:279-280 | without a detected call the first reply is the answer |
| Api.ToolsOffNoTool | app/main.py:258 | with tools off, or a profile without tools, no tool runs and the dispatch is never consulted |
| Api.DetectedCallListed | app/main.py:258-267 | a call is acted on exactly when tools are offered, the detector finds one, and its stripped name is one of the profile's tools |
| Api.EscapedReplyDetected | app/main.py:258-268 | an escaped call naming a listed tool is acted on with that name and input |
| Api.InstructedReplyNotDetected | app/main.py:16-21 | a reply that follows the instruction's own plain-JSON example is never acted on |
| Api.AsWrittenToolRoundFails | app/main.py:268-277 | as written, the tool round always ends with the TypeError after the first model call, and the tool never runs |
| Api.IntendedToolRoundAnswers | app/main.py:268-277 | as intended, the tool result is fed back after the first reply; the second reply is the answer and names the tool and its input; a failing second call is the error |
| Api.AsWrittenToolCallFails | app/main.py:270 | as written, every detected call ends the turn with the TypeError after one model call |
| Api.AsWrittenNeverUsesTool | app/main.py:264-277 | as written, no answered turn used a tool |
| Api.IntendedToolCallAnswers | app/main.py:268-277 | as intended, the tool result is fed back and the second reply is the answer, reporting the tool and its input |
| Api.KbSearchCallUnknown | app/main.py:200-202 | a `kb_search` call gets the unknown-tool reply |
| Api.CreateGem | app/main.py:144-154 | creates and appends the profile with the defaults applied, saving once |
| Api.NewGemFields | app/main.py:145-152 | every field of the body is copied; a zero temperature becomes 0.2 and no profile is created with temperature 0 |
| Api.RegisterKbSearch | app/main.py:200-202 | nothing is saved when `kb_search` is already listed; otherwise the store makes the update that appends it, saving once when the profile is still there and not at all when it is gone |
| Api.WithKbSearchEffect | app/main.py:200-202 | the profile afterwards lists `kb_search` after its earlier tools, and every other profile is unchanged |
| Api.WithKbSearchIdempotent | app/main.py:200-202 | registering twice is registering once |
| Api.RegisterIsWithKbSearch | app/main.py:200-202 | with an up-to-date profile, the update is the registration |
| Api.CollectUploadsAsWritten | app/main.py:177-196 | the loop as written: it writes the non-empty parts but collects only the last part's path |
| Api.CollectUploads | app/main.py:177-196 | the loop as intended collects exactly the written paths, and reports when there are none |
| Api.TmpPath | app/main.py:184-185 | the path is absolute and ends with the part's name, or with `unnamed_file` when the name is missing or empty |
| Api.AbsoluteNameEscapesTmp | app/main.py:185 | an absolute client name such as `/etc/x` replaces `/tmp`, so the file is written there |
| Api.UnnamedPartPath | app/main.py:184-185 | a missing or empty name is stored as `/tmp/unnamed_file` |
| Api.WrittenPathsCharacterised | app/main.py:182-192 | a path is written exactly for each non-empty part |
| Api.UploadPathsWritten | app/main.py:182-196 | as intended, ingestion gets exactly the written files, and "No valid files to process" comes exactly when every part was empty |
| Api.AsWrittenIngestsUnwrittenFile | app/main.py:182-193 | a non-empty a.txt followed by an empty b.txt hands ingestion only /tmp/b.txt, which was never written |
| Api.AsWrittenNeverNoValidFiles | app/main.py:193-196 | as written, the "No valid files" check can never fire |

## Left out

- HTTP routing, status codes and JSON serialisation are not modelled. A turn ends as an answer, as `NotFound` (the 404) or as `Failed` with the exception text (a 500).
- The thin CRUD and listing endpoints are not modelled separately. These are `health`, `list_gems`, `get_gem`, `update_gem`, `remove_gem` and `list_agent_files`, plus the templates and the HTML page in app/main.py. Each only calls a store or knowledge-base function that is modelled.
- Api.TmpPath: pathlib's join is modelled only as far as an absolute name replacing `/tmp`. The normalisation of the resulting `Path` is not modelled: repeated slashes, `.` components, a trailing slash and a leading `//`. A name such as `a//b` is kept as written.
- The upload's own error handling is not modelled. Its `HTTPException` raised inside the `try` is re-wrapped as a 500 by the `except`. The `finally` that deletes the temporary files is also left out. The model keeps only the choice of paths and the `kb_search` update.
- Api.ChatTurn: the caller passes `kb`, the knowledge base under the requested id. A found profile carries that id, so this is the directory the source reads.
- Api.RegisterKbSearch: the store may have changed between the upload's lookup and its update. The source then overwrites the tools with the stale list plus `kb_search`, and the model does exactly that. Concurrent requests are not modelled.
- Detecting tool calls: the code matches only the escaped form `{\"tool\":\"…\",\"input\":\"…\"}`. Plain JSON, fenced blocks and swapped keys are not detected. The model follows the code, and Api.InstructedReplyNotDetected states the consequence: the instruction's own example is never acted on.
- Reading files is not modelled: PDF parsing and text decoding (`_read_text`). An upload arrives with its extracted text.
- Directory creation and file I/O are not modelled. The listing of `files/` is a set, because its order is the file system's.
- Writing the index is not modelled. The empty corpus's `zeros((0, 1))` placeholder is an empty matrix (size 0).
- Kb.RankProperties: the cosine formula, the norms and the 1e-8 epsilon are an abstract `Scorer` parameter. Only the order of the scores is used, and the scale invariance of cosine similarity is not stated.
- Ranking.ArgSortDesc: NumPy's sort is not stable. The model fixes one tie order (insertion sort), and only tie-independent properties are stated about it.
- Floating point is not modelled. Temperatures and scores are `real`, and `:.3f` is a formatter parameter.
- Tools.Calculator: these are parameters, outside the model:
  - `ast.parse`;
  - float and complex arithmetic;
  - true division and `**`;
  - Python's big-int `str` for huge values.
  Only integer `+ - * // %` and unary minus are computed exactly, for trees within the recursion limit (next line).
- Tools.Eval: the recursion limit is not modelled. `_eval` recurses once per tree level, so a tree nested deeper than CPython's recursion limit (1000 frames by default, less the frames already on the stack) raises `RecursionError`. `calculator` catches it and replies "Calculator error: maximum recursion depth exceeded", for instance on `"1" + "+1" * 1200`. The model's Eval evaluates trees of any depth, so Tools.Eval, Tools.EvalIntegerExact and Tools.Calculator describe the source only for trees within that limit. The limit depends on the running interpreter's stack, which is outside the model.
- Tools.NumericConstants: the `ast.Num` branch is modelled as in Python versions that still define `ast.Num`. It accepts int, float and complex constants, and bools through the `ast.Constant` branch. On Python 3.14, where `ast.Num` is gone, every calculator call would reply with a `Calculator error`. That is not modelled.
- `web_search` uses the network and is a parameter. So are the chat and embedding HTTP requests. These take the model, messages and temperature, or the model, field and text, and return the reply or the failure. The `data.get(...)` probing of a response happens inside them.
- PyText.Lower lowercases ASCII letters only, whereas Python's `str.lower` is full Unicode. Backend names are always ASCII in practice.
- Llm.Chat: the `RuntimeError` for an unknown backend is not modelled. It is unreachable because `_pick_backend` returns only the two known names, a fact Llm.PickBackend states.
- The timeouts, base URLs and `load_dotenv` are not modelled. The environment is a `Config` value.
- The store is not modelled at the file level: seeding the file (`_ensure_file`), the uuid generator (an id parameter) and pydantic validation on load.

## Findings

| source | as written | input that shows it | evidently intended | confidence | as-written member | corrected member |
|---|---|---|---|---|---|---|
| app/main.py:270 | `run_tool(tname, tinp, gem_id=gem.id)`, but `run_tool` (app/tools.py:59) takes only `name` and `tool_input`, so every call raises a TypeError and the turn becomes a 500 | a profile with tools ["calculator"] in auto mode, and a first reply `{\"tool\":\"calculator\",\"input\":\"2+2\"}` | `run_tool(tname, tinp)`: run the tool, feed the result back, answer with the second reply | high; not executed | Api.AsWrittenToolRoundFails | Api.IntendedToolRoundAnswers |
| app/main.py:193 | `tmp_paths.append(p)` sits after the `for` loop. Only the last part's path is collected, even when that part was empty and never written, and the "No valid files" check cannot fire | a non-empty part "a.txt" followed by an empty part "b.txt": ingestion gets /tmp/b.txt, which does not exist | append inside the loop, after `p.write_bytes(content)` | high; not executed | Api.AsWrittenIngestsUnwrittenFile | Api.UploadPathsWritten |
