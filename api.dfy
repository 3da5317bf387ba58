/** The chat endpoint and the profile-level glue of the web application (app/main.py):
    one chat turn with optional retrieval context and at most one tool call, the
    defaults `create_gem` applies, the `kb_search` registration after an upload and
    the choice of the files an upload hands to ingestion. The language models, the
    embedding providers, the similarity score, the score formatter and the tools
    are oracles gathered in `Services`. */
module Api {
  import opened Wrappers
  import opened Models
  import PyText
  import Llm
  import Kb
  import Tools
  import Store
  import ToolCall

  /** Everything a turn talks to outside this process. */
  datatype Services = Services(
    cfg: Llm.Config,
    ollamaChat: Llm.ChatBackend,
    openaiChat: Llm.ChatBackend,
    ollamaEmbed: Llm.OllamaEmbedder,
    openaiEmbed: Llm.OpenAIEmbedder,
    score: Kb.Scorer,
    fmt: real -> string,
    tools: Tools.Environment)

  /** How a turn ends: the response, the 404 for an unknown profile, or an exception
      (a failed model call, a failed retrieval, a failed tool call) that becomes a 500. */
  datatype Outcome = Answered(response: ChatResponse) | NotFound | Failed(error: string)

  /** How the detected tool is invoked: its name and input to its result, or the
      exception the call raises. */
  type Dispatch = (string, string) -> Result<string, string>

  // ---------------------------------------------------------------------------
  // The pieces of a turn

  /** `TOOLS_INSTRUCTION.format(tools=", ".join(tools))`; the doubled braces of the
      template come out single. */
  function ToolsInstruction(tools: seq<string>): string {
    ToolsHeader(tools) + InstructionBody
  }

  /** The lines of the instruction after the list of tools. */
  const InstructionBody: string :=
    "\nWhen you want to call a tool, reply with ONLY this JSON (no extra text):\n"
    + ExampleCall + "\n"
    + "After the tool result is provided, produce a concise final answer for the user.\n"

  /** The first line of the instruction: the tools, joined by ", ". */
  function ToolsHeader(tools: seq<string>): string {
    "You have access to the following tools: " + PyText.Join(tools, ", ") + "."
  }

  /** The call the instruction shows the model. */
  const ExampleCall: string := "{\"tool\":\"<tool_name>\",\"input\":\"<text>\"}"

  /** Whether the turn offers tools at all. */
  predicate OffersTools(gem: Gem, mode: ToolsMode) {
    mode == Auto && gem.tools != []
  }

  /** The system message of the turn. */
  function SystemPrompt(gem: Gem, mode: ToolsMode): string {
    if OffersTools(gem, mode) then gem.systemPrompt + "\n\n" + ToolsInstruction(gem.tools)
    else gem.systemPrompt
  }

  /** `next((m.content for m in reversed(messages) if m.role == "user"), "")`. */
  function LastUserContent(messages: seq<Message>): string {
    if messages == [] then ""
    else if messages[|messages| - 1].role == User then messages[|messages| - 1].content
    else LastUserContent(messages[..|messages| - 1])
  }

  /** The retrieval of a turn: `kb.query(gem.id, q, k=4)` once both artifacts exist. */
  function Retrieval(meta: Kb.Artifact<seq<Kb.ChunkRecord>>, vecs: Kb.Artifact<seq<Kb.Vector>>,
                     q: string, svc: Services): Result<seq<Kb.Snippet>, string>
    requires vecs.Present? ==> Kb.Rectangular(vecs.value)
  {
    Kb.Retrieve(meta, vecs, 4, Llm.EmbedSpec(svc.cfg, [q], None, svc.ollamaEmbed, svc.openaiEmbed), svc.score)
  }

  /** The extra system message carrying the retrieved context, if there is any. */
  function ContextMessages(snips: seq<Kb.Snippet>, fmt: real -> string): seq<Message> {
    var ctx := Kb.BuildContext(snips, fmt);
    if ctx == "" then [] else [Message(System, ctx)]
  }

  /** The conversation of the first model call, or the retrieval failure. */
  function Prompt(gem: Gem, req: ChatRequest, hasIndex: bool,
                  meta: Kb.Artifact<seq<Kb.ChunkRecord>>, vecs: Kb.Artifact<seq<Kb.Vector>>,
                  svc: Services): Result<seq<Message>, string>
    requires vecs.Present? ==> Kb.Rectangular(vecs.value)
  {
    var opening := [Message(System, SystemPrompt(gem, req.toolsMode))] + req.messages;
    var q := LastUserContent(req.messages);
    if q != "" && hasIndex then
      match Retrieval(meta, vecs, q, svc)
      case Err(e) => Err(e)
      case Ok(snips) => Ok(opening + ContextMessages(snips, svc.fmt))
    else Ok(opening)
  }

  /** `llm_chat(convo, temperature=gem.temperature, model_override=gem.model)`. */
  function Ask(gem: Gem, convo: seq<Message>, svc: Services): Result<string, string> {
    Llm.Chat(svc.cfg, convo, gem.temperature, gem.model, svc.ollamaChat, svc.openaiChat)
  }

  /** The tool call a first reply asks for: searched for only when tools are offered,
      and kept only when its stripped name is one of the profile's tools. */
  function DetectedCall(gem: Gem, mode: ToolsMode, reply: string): Option<(string, string)> {
    if !OffersTools(gem, mode) then None
    else match ToolCall.Detect(reply)
      case None => None
      case Some((name, input)) => if name in gem.tools then Some((name, input)) else None
  }

  /** The message that feeds a tool result back to the model. */
  function ToolMessage(name: string, result: string): Message {
    Message(Tool, "Tool " + name + " result:\n" + result)
  }

  /** The turn once the first conversation is built: the outcome and every
      conversation sent to the model, in order. */
  function Reply(gem: Gem, mode: ToolsMode, convo: seq<Message>, svc: Services, dispatch: Dispatch)
    : (Outcome, seq<seq<Message>>)
  {
    match Ask(gem, convo, svc)
    case Err(e) => (Failed(e), [convo])
    case Ok(first) =>
      match DetectedCall(gem, mode, first)
      case None => (Answered(ChatResponse(first, None, None)), [convo])
      case Some((name, input)) => ToolRound(gem, convo, first, name, input, svc, dispatch)
  }

  /** The tool round: run the tool, feed the first reply and the result back, and ask
      a second time. */
  function ToolRound(gem: Gem, convo: seq<Message>, first: string, name: string, input: string,
                     svc: Services, dispatch: Dispatch): (Outcome, seq<seq<Message>>)
  {
    match dispatch(name, input)
    case Err(e) => (Failed(e), [convo])
    case Ok(result) =>
      var convo2 := convo + [Message(Assistant, first), ToolMessage(name, result)];
      match Ask(gem, convo2, svc)
      case Err(e) => (Failed(e), [convo, convo2])
      case Ok(final) => (Answered(ChatResponse(final, Some(name), Some(input))), [convo, convo2])
  }

  /** A chat turn for a profile that exists. */
  function ChatSpec(gem: Gem, req: ChatRequest, hasIndex: bool,
                    meta: Kb.Artifact<seq<Kb.ChunkRecord>>, vecs: Kb.Artifact<seq<Kb.Vector>>,
                    svc: Services, dispatch: Dispatch): (Outcome, seq<seq<Message>>)
    requires vecs.Present? ==> Kb.Rectangular(vecs.value)
  {
    match Prompt(gem, req, hasIndex, meta, vecs, svc)
    case Err(e) => (Failed(e), [])
    case Ok(convo) => Reply(gem, req.toolsMode, convo, svc, dispatch)
  }

  /** The dispatch as written: `run_tool(tname, tinp, gem_id=gem.id)`. */
  function AsWrittenDispatch(env: Tools.Environment): Dispatch {
    (name, input) => Tools.CallRunTool(name, input, ["gem_id"], env)
  }

  /** The dispatch the turn evidently means: `run_tool(tname, tinp)`. */
  function IntendedDispatch(env: Tools.Environment): Dispatch {
    (name, input) => Ok(Tools.RunTool(name, input, env))
  }

  const GemIdError: string := "run_tool() got an unexpected keyword argument 'gem_id'"

  // ---------------------------------------------------------------------------
  // The endpoint

  /** `chat(body)`: look the profile up, build the conversation message by message,
      add the retrieval context, ask the model, and on a detected call run the tool
      and ask again. `kb` is the knowledge base stored under the requested id;
      `prompts` lists the conversations sent to the model. */
  method ChatTurn(store: Store.GemStore, kb: Kb.KnowledgeBase, req: ChatRequest, svc: Services, dispatch: Dispatch)
    returns (r: Outcome, prompts: seq<seq<Message>>)
    requires kb.Valid()
    ensures match Store.FindGem(store.gems, req.gemId)
      case None => r == NotFound && prompts == []
      case Some(gem) => (r, prompts) == ChatSpec(gem, req, kb.HasIndex(), kb.meta, kb.vecs, svc, dispatch)
  {
    var found := store.GetGem(req.gemId);
    if found.None? {
      return NotFound, [];
    }
    var gem := found.value;
    var p := BuildPrompt(kb, gem, req, svc);
    if p.Err? {
      return Failed(p.error), [];
    }
    r, prompts := Respond(gem, req.toolsMode, p.value, svc, dispatch);
  }

  /** Steps 1 and 2 of the turn: the system message, the request messages, and the
      retrieval context when the last user message is non-empty and an index exists. */
  method BuildPrompt(kb: Kb.KnowledgeBase, gem: Gem, req: ChatRequest, svc: Services)
    returns (convo: Result<seq<Message>, string>)
    requires kb.Valid()
    ensures convo == Prompt(gem, req, kb.HasIndex(), kb.meta, kb.vecs, svc)
  {
    var msgs := Opening(gem, req);
    var lastUser := LastUserContent(req.messages);
    if lastUser != "" && kb.HasIndex() {
      var snips := kb.Query(lastUser, 4, svc.cfg, svc.ollamaEmbed, svc.openaiEmbed, svc.score);
      if snips.Err? {
        return Err(snips.error);
      }
      assert snips == Retrieval(kb.meta, kb.vecs, lastUser, svc);
      var ctx := Kb.BuildContext(snips.value, svc.fmt);
      if ctx != "" {
        msgs := msgs + [Message(System, ctx)];
      }
      assert msgs == [Message(System, SystemPrompt(gem, req.toolsMode))] + req.messages
        + ContextMessages(snips.value, svc.fmt);
    }
    return Ok(msgs);
  }

  /** Step 1: the system message, with the tools instruction when tools are offered,
      then every request message in order. */
  method Opening(gem: Gem, req: ChatRequest) returns (msgs: seq<Message>)
    ensures msgs == [Message(System, SystemPrompt(gem, req.toolsMode))] + req.messages
  {
    var sys := gem.systemPrompt;
    if req.toolsMode == Auto && gem.tools != [] {
      sys := sys + "\n\n" + ToolsInstruction(gem.tools);
    }
    assert sys == SystemPrompt(gem, req.toolsMode);
    msgs := [Message(System, sys)];
    for i := 0 to |req.messages|
      invariant msgs == [Message(System, sys)] + req.messages[..i]
    {
      assert req.messages[..i + 1] == req.messages[..i] + [req.messages[i]];
      msgs := msgs + [req.messages[i]];
    }
    assert req.messages[..|req.messages|] == req.messages;
  }

  /** Steps 3 to 5 of the turn: the first model call, the tool round, the answer. */
  method Respond(gem: Gem, mode: ToolsMode, convo: seq<Message>, svc: Services, dispatch: Dispatch)
    returns (r: Outcome, prompts: seq<seq<Message>>)
    ensures (r, prompts) == Reply(gem, mode, convo, svc, dispatch)
  {
    var first := Ask(gem, convo, svc);
    if first.Err? {
      return Failed(first.error), [convo];
    }
    var usedTool: Option<string> := None;
    var toolInput: Option<string> := None;
    if mode == Auto && gem.tools != [] {
      var m := ToolCall.Detect(first.value);
      if m.Some? {
        var (name, input) := m.value;
        if name in gem.tools {
          assert DetectedCall(gem, mode, first.value) == Some((name, input));
          r, prompts := RunToolRound(gem, convo, first.value, name, input, svc, dispatch);
          return;
        }
      }
      assert DetectedCall(gem, mode, first.value) == None;
    }
    return Answered(ChatResponse(first.value, usedTool, toolInput)), [convo];
  }

  /** Step 4 once a call is detected: the conversation grows by the first reply and
      the tool message, and the second reply is the answer. */
  method RunToolRound(gem: Gem, convo: seq<Message>, first: string, name: string, input: string,
                      svc: Services, dispatch: Dispatch) returns (r: Outcome, prompts: seq<seq<Message>>)
    ensures (r, prompts) == ToolRound(gem, convo, first, name, input, svc, dispatch)
  {
    var usedTool := Some(name);
    var toolInput := Some(input);
    var result := dispatch(name, input);
    if result.Err? {
      return Failed(result.error), [convo];
    }
    var msgs := convo;
    msgs := msgs + [Message(Assistant, first)];
    msgs := msgs + [ToolMessage(name, result.value)];
    assert msgs == convo + [Message(Assistant, first), ToolMessage(name, result.value)];
    var final := Ask(gem, msgs, svc);
    prompts := [convo, msgs];
    if final.Err? {
      return Failed(final.error), prompts;
    }
    return Answered(ChatResponse(final.value, usedTool, toolInput)), prompts;
  }

  // ---------------------------------------------------------------------------
  // Profiles

  /** The profile `create_gem` stores: `tools or []` keeps the list (an empty list is
      already `[]`) and `temperature or 0.2` replaces a zero temperature. */
  function NewGem(body: GemCreate, id: string): Gem {
    Gem(id, body.name, body.systemPrompt, body.tools,
        if body.temperature == 0.0 then DefaultTemperature else body.temperature,
        body.model)
  }

  /** `create_gem(body)`; `id` is the fresh `uuid` the store hands out. */
  method CreateGem(store: Store.GemStore, body: GemCreate, id: string) returns (g: Gem)
    modifies store
    ensures g == NewGem(body, id)
    ensures store.gems == old(store.gems) + [g] && store.saves == old(store.saves) + 1
  {
    var tools := if body.tools == [] then [] else body.tools;
    var temperature := if body.temperature == 0.0 then 0.2 else body.temperature;
    var created := Gem(id, body.name, body.systemPrompt, tools, temperature, body.model);
    g := store.AddGem(created);
  }

  const KbSearch: string := "kb_search"

  /** The update the upload makes to the profile it read: none when `kb_search` is
      already listed, else the tools with `kb_search` appended. */
  function KbSearchPatch(tools: seq<string>): Option<GemUpdate> {
    if KbSearch in tools then None else Some(GemUpdate(tools := Some(tools + [KbSearch])))
  }

  /** The profile list after the upload's registration of `kb_search`. */
  function WithKbSearch(gems: seq<Gem>, id: string): seq<Gem> {
    match Store.FindGem(gems, id)
    case None => gems
    case Some(g) =>
      match KbSearchPatch(g.tools)
      case None => gems
      case Some(patch) => Store.Updated(gems, id, patch)
  }

  /** The tail of `upload_files` once ingestion succeeded; `gem` is the profile the
      upload read before ingesting. */
  method RegisterKbSearch(store: Store.GemStore, gem: Gem)
    modifies store
    ensures KbSearch in gem.tools ==> store.gems == old(store.gems) && store.saves == old(store.saves)
    ensures KbSearch !in gem.tools ==>
      store.gems == Store.Updated(old(store.gems), gem.id, GemUpdate(tools := Some(gem.tools + [KbSearch])))
      && store.saves == old(store.saves) + (if Store.FirstMatch(old(store.gems), gem.id).Some? then 1 else 0)
  {
    if KbSearch !in gem.tools {
      var _ := store.UpdateGem(gem.id, GemUpdate(tools := Some(gem.tools + [KbSearch])));
    }
  }

  // ---------------------------------------------------------------------------
  // Uploads

  /** One part of the multipart upload. */
  datatype UploadFile = UploadFile(filename: Option<string>, content: seq<bv8>)

  /** `Path("/tmp") / (f.filename or "unnamed_file")`. Joining follows pathlib: a name
      that is itself absolute replaces the base directory, so the file is written
      outside `/tmp`. */
  function TmpPath(f: UploadFile): (p: string)
    ensures p != [] && p[0] == '/'
    ensures var name := Llm.OrElse(f.filename, "unnamed_file");
      |name| <= |p| && p[|p| - |name|..] == name
  {
    var name := Llm.OrElse(f.filename, "unnamed_file");
    if name[0] == '/' then name else "/tmp/" + name
  }

  /** The temporary files the loop writes: one per non-empty part, in order. */
  function WrittenPaths(files: seq<UploadFile>): seq<string> {
    if files == [] then []
    else
      var last := files[|files| - 1];
      WrittenPaths(files[..|files| - 1]) + (if last.content == [] then [] else [TmpPath(last)])
  }

  /** The paths handed to ingestion as written: the append sits after the loop, so
      only the last part's path is collected, written or not. */
  function UploadPathsAsWritten(files: seq<UploadFile>): Result<seq<string>, string> {
    if files == [] then Err("No files provided")
    else Ok([TmpPath(files[|files| - 1])])
  }

  /** The paths handed to ingestion as the loop evidently means: every written file. */
  function UploadPaths(files: seq<UploadFile>): Result<seq<string>, string> {
    if files == [] then Err("No files provided")
    else if WrittenPaths(files) == [] then Err("No valid files to process")
    else Ok(WrittenPaths(files))
  }

  /** The loop of `upload_files` as written. `written` lists the files it creates. */
  method CollectUploadsAsWritten(files: seq<UploadFile>) returns (r: Result<seq<string>, string>, written: seq<string>)
    ensures r == UploadPathsAsWritten(files)
    ensures written == WrittenPaths(files)
  {
    if files == [] {
      return Err("No files provided"), [];
    }
    var tmpPaths: seq<string> := [];
    written := [];
    var p := "";
    for i := 0 to |files|
      invariant written == WrittenPaths(files[..i])
      invariant i > 0 ==> p == TmpPath(files[i - 1])
    {
      assert files[..i + 1][..i] == files[..i];
      p := TmpPath(files[i]);
      if files[i].content != [] {
        written := written + [p];
      }
    }
    assert files[..|files|] == files;
    assert p == TmpPath(files[|files| - 1]);
    tmpPaths := tmpPaths + [p];
    assert tmpPaths == [TmpPath(files[|files| - 1])];
    return Ok(tmpPaths), written;
  }

  /** The loop with the append inside it, and the emptiness check that then can fire. */
  method CollectUploads(files: seq<UploadFile>) returns (r: Result<seq<string>, string>, written: seq<string>)
    ensures r == UploadPaths(files)
    ensures written == WrittenPaths(files)
  {
    if files == [] {
      return Err("No files provided"), [];
    }
    var tmpPaths: seq<string> := [];
    for i := 0 to |files|
      invariant tmpPaths == WrittenPaths(files[..i])
    {
      assert files[..i + 1][..i] == files[..i];
      if files[i].content != [] {
        tmpPaths := tmpPaths + [TmpPath(files[i])];
      }
    }
    assert files[..|files|] == files;
    written := tmpPaths;
    if tmpPaths == [] {
      return Err("No valid files to process"), written;
    }
    return Ok(tmpPaths), written;
  }

  // ---------------------------------------------------------------------------
  // Lemmas: the conversation

  /** The system message is the profile's prompt, extended exactly when tools are
      offered, and then, after a blank line, by the line listing the tools. */
  lemma SystemPromptExtension(gem: Gem, mode: ToolsMode)
    ensures gem.systemPrompt <= SystemPrompt(gem, mode)
    ensures SystemPrompt(gem, mode) == gem.systemPrompt <==> !OffersTools(gem, mode)
    ensures OffersTools(gem, mode) ==>
      var n := |gem.systemPrompt| + 2;
      && n + |ToolsHeader(gem.tools)| <= |SystemPrompt(gem, mode)|
      && SystemPrompt(gem, mode)[n - 2..n] == "\n\n"
      && SystemPrompt(gem, mode)[n..n + |ToolsHeader(gem.tools)|] == ToolsHeader(gem.tools)
  {
    var sp := gem.systemPrompt;
    if OffersTools(gem, mode) {
      var h := ToolsHeader(gem.tools);
      var s := SystemPrompt(gem, mode);
      assert s == sp + "\n\n" + h + InstructionBody;
      assert s[..|sp|] == sp;
      assert s[|sp|..|sp| + 2] == "\n\n";
      assert s[|sp| + 2..|sp| + 2 + |h|] == h;
    }
  }

  /** The query is the content of the last message with the `user` role, or empty
      when no message has it. */
  lemma {:induction false} LastUserContentIsLastUser(messages: seq<Message>)
    ensures (forall j :: 0 <= j < |messages| ==> messages[j].role != User) ==> LastUserContent(messages) == ""
    ensures (exists j :: 0 <= j < |messages| && messages[j].role == User) ==>
      exists i :: 0 <= i < |messages| && messages[i].role == User
        && LastUserContent(messages) == messages[i].content
        && forall j :: i < j < |messages| ==> messages[j].role != User
    decreases |messages|
  {
    if messages != [] && messages[|messages| - 1].role != User {
      var init := messages[..|messages| - 1];
      LastUserContentIsLastUser(init);
      assert forall j :: 0 <= j < |init| ==> init[j] == messages[j];
    }
  }

  /** The first conversation is the system message, the request messages unchanged
      and in order, and at most one more system message. */
  lemma PromptShape(gem: Gem, req: ChatRequest, hasIndex: bool,
                    meta: Kb.Artifact<seq<Kb.ChunkRecord>>, vecs: Kb.Artifact<seq<Kb.Vector>>, svc: Services)
    requires vecs.Present? ==> Kb.Rectangular(vecs.value)
    ensures Prompt(gem, req, hasIndex, meta, vecs, svc).Ok? ==>
      var c := Prompt(gem, req, hasIndex, meta, vecs, svc).value;
      var n := |req.messages|;
      && n + 1 <= |c| <= n + 2
      && c[0] == Message(System, SystemPrompt(gem, req.toolsMode))
      && c[1..n + 1] == req.messages
      && (|c| == n + 2 ==> c[n + 1].role == System)
  {
    var opening := [Message(System, SystemPrompt(gem, req.toolsMode))] + req.messages;
    assert opening[1..] == req.messages;
    var q := LastUserContent(req.messages);
    if q != "" && hasIndex && Retrieval(meta, vecs, q, svc).Ok? {
      var extra := ContextMessages(Retrieval(meta, vecs, q, svc).value, svc.fmt);
      assert (opening + extra)[1..|req.messages| + 1] == req.messages;
    }
  }

  /** Retrieval runs only for a non-empty query against an existing index; otherwise
      the knowledge base plays no part in the turn. */
  lemma RetrievalGate(gem: Gem, req: ChatRequest, hasIndex: bool,
                      meta: Kb.Artifact<seq<Kb.ChunkRecord>>, vecs: Kb.Artifact<seq<Kb.Vector>>,
                      meta2: Kb.Artifact<seq<Kb.ChunkRecord>>, vecs2: Kb.Artifact<seq<Kb.Vector>>, svc: Services)
    requires vecs.Present? ==> Kb.Rectangular(vecs.value)
    requires vecs2.Present? ==> Kb.Rectangular(vecs2.value)
    requires LastUserContent(req.messages) == "" || !hasIndex
    ensures Prompt(gem, req, hasIndex, meta, vecs, svc)
      == Ok([Message(System, SystemPrompt(gem, req.toolsMode))] + req.messages)
    ensures Prompt(gem, req, hasIndex, meta, vecs, svc) == Prompt(gem, req, hasIndex, meta2, vecs2, svc)
  {
  }

  /** A retrieval returns at most four snippets, and the context message appears
      exactly when it returned any. */
  lemma RetrievalContext(meta: Kb.Artifact<seq<Kb.ChunkRecord>>, vecs: Kb.Artifact<seq<Kb.Vector>>,
                         q: string, svc: Services)
    requires vecs.Present? ==> Kb.Rectangular(vecs.value)
    ensures Retrieval(meta, vecs, q, svc).Ok? ==>
      var snips := Retrieval(meta, vecs, q, svc).value;
      && |snips| <= 4
      && (ContextMessages(snips, svc.fmt) == [] <==> snips == [])
      && (snips != [] ==> ContextMessages(snips, svc.fmt) == [Message(System, Kb.BuildContext(snips, svc.fmt))])
  {
    if meta.Present? && vecs.Present? && Kb.Size(vecs.value) != 0 {
      var embedded := Llm.EmbedSpec(svc.cfg, [q], None, svc.ollamaEmbed, svc.openaiEmbed);
      if embedded.Ok? && embedded.value != [] && |embedded.value[0]| == |vecs.value[0]| {
        Kb.RankProperties(meta.value, Kb.Sims(vecs.value, embedded.value[0], svc.score), 4);
      }
    }
  }

  // ---------------------------------------------------------------------------
  // Lemmas: the model calls and the tool round

  /** At most two model calls: the first on the built conversation, a second only
      after a tool ran, on that conversation grown by exactly the first reply and the
      tool message. The answer is the reply to the last call, and a tool is reported
      exactly when two calls were made. */
  lemma ReplyCalls(gem: Gem, mode: ToolsMode, convo: seq<Message>, svc: Services, dispatch: Dispatch)
    ensures var (r, ps) := Reply(gem, mode, convo, svc, dispatch);
      && 1 <= |ps| <= 2 && ps[0] == convo
      && (r.Answered? ==> Ask(gem, ps[|ps| - 1], svc) == Ok(r.response.content))
      && (r.Answered? ==> (r.response.usedTool.Some? <==> |ps| == 2))
      && (r.Answered? ==> (r.response.usedTool.Some? <==> r.response.toolInput.Some?))
      && (|ps| == 2 ==>
            && Ask(gem, convo, svc).Ok?
            && DetectedCall(gem, mode, Ask(gem, convo, svc).value).Some?
            && var (name, input) := DetectedCall(gem, mode, Ask(gem, convo, svc).value).value;
            && dispatch(name, input).Ok?
            && ps[1] == convo + [Message(Assistant, Ask(gem, convo, svc).value), ToolMessage(name, dispatch(name, input).value)]
            && (r.Answered? ==> r.response.usedTool == Some(name) && r.response.toolInput == Some(input)))
  {
  }

  /** Without a detected call the model is asked once and its reply is the answer. */
  lemma NoCallOneReply(gem: Gem, mode: ToolsMode, convo: seq<Message>, svc: Services, dispatch: Dispatch)
    requires Ask(gem, convo, svc).Ok? && DetectedCall(gem, mode, Ask(gem, convo, svc).value).None?
    ensures Reply(gem, mode, convo, svc, dispatch) == (Answered(ChatResponse(Ask(gem, convo, svc).value)), [convo])
  {
  }

  /** With tools off, or a profile without tools, no reply runs a tool and the
      dispatch is never consulted. */
  lemma ToolsOffNoTool(gem: Gem, mode: ToolsMode, convo: seq<Message>, svc: Services, d1: Dispatch, d2: Dispatch)
    requires !OffersTools(gem, mode)
    ensures Reply(gem, mode, convo, svc, d1) == Reply(gem, mode, convo, svc, d2)
    ensures |Reply(gem, mode, convo, svc, d1).1| == 1
    ensures Reply(gem, mode, convo, svc, d1).0.Answered? ==> Reply(gem, mode, convo, svc, d1).0.response.usedTool == None
  {
  }

  /** A detected call names one of the profile's tools, and only when tools are offered. */
  lemma DetectedCallListed(gem: Gem, mode: ToolsMode, reply: string)
    ensures DetectedCall(gem, mode, reply).Some? ==>
      OffersTools(gem, mode) && DetectedCall(gem, mode, reply).value.0 in gem.tools
    ensures DetectedCall(gem, mode, reply).Some? <==>
      OffersTools(gem, mode) && ToolCall.Detect(reply).Some? && ToolCall.Detect(reply).value.0 in gem.tools
  {
  }

  /** A reply in the escaped form (`{\"tool\":\"NAME\",\"input\":\"INPUT\"}`) is
      detected with that name and input when the profile lists the name. */
  lemma EscapedReplyDetected(gem: Gem, name: string, input: string)
    requires gem.tools != [] && name in gem.tools
    requires name != [] && forall k :: 0 <= k < |name| ==> ToolCall.NameChar(name[k])
    requires '\\' !in input
    requires PyText.Strip(name) == name && PyText.Strip(input) == input
    ensures DetectedCall(gem, Auto, ToolCall.EscapedCall(name, input)) == Some((name, input))
  {
    ToolCall.EscapedCallDetected(name, input);
  }

  /** The instruction's example call is plain JSON, without the backslashes the
      pattern expects. */
  lemma ExampleCallIsPlain()
    ensures ExampleCall == ToolCall.PlainCall("<tool_name>", "<text>")
  {
  }

  /** A reply that follows the instruction's own example literally, as plain JSON,
      is never detected, so it runs no tool. */
  lemma InstructedReplyNotDetected(gem: Gem, mode: ToolsMode, name: string, input: string)
    requires '\\' !in name && '\\' !in input
    ensures DetectedCall(gem, mode, ToolCall.PlainCall(name, input)) == None
  {
    ToolCall.PlainJsonNotDetected(name, input);
  }

  // ---------------------------------------------------------------------------
  // Lemmas: the dispatch as written and as intended

  /** As written, the tool round always fails with the `TypeError`: the tool never
      runs and no second model call is made. */
  lemma AsWrittenToolRoundFails(gem: Gem, convo: seq<Message>, first: string, name: string, input: string,
                                svc: Services)
    ensures ToolRound(gem, convo, first, name, input, svc, AsWrittenDispatch(svc.tools)) == (Failed(GemIdError), [convo])
  {
    Tools.GemIdKeywordRejected(name, input, svc.tools);
  }

  /** As intended, the tool round feeds the tool's result back after the first reply
      and answers with the second reply, naming the tool and its input. */
  lemma IntendedToolRoundAnswers(gem: Gem, convo: seq<Message>, first: string, name: string, input: string,
                                 svc: Services)
    ensures var convo2 := convo + [Message(Assistant, first), ToolMessage(name, Tools.RunTool(name, input, svc.tools))];
      var (r, ps) := ToolRound(gem, convo, first, name, input, svc, IntendedDispatch(svc.tools));
      && ps == [convo, convo2]
      && (Ask(gem, convo2, svc).Ok? <==> r.Answered?)
      && (r.Answered? ==> r.response == ChatResponse(Ask(gem, convo2, svc).value, Some(name), Some(input)))
      && (r.Failed? ==> Ask(gem, convo2, svc) == Err(r.error))
  {
  }

  /** As written, every detected call fails with a `TypeError` before the tool runs:
      the turn ends after one model call. */
  lemma AsWrittenToolCallFails(gem: Gem, mode: ToolsMode, convo: seq<Message>, svc: Services)
    requires Ask(gem, convo, svc).Ok? && DetectedCall(gem, mode, Ask(gem, convo, svc).value).Some?
    ensures Reply(gem, mode, convo, svc, AsWrittenDispatch(svc.tools)) == (Failed(GemIdError), [convo])
  {
    var first := Ask(gem, convo, svc).value;
    var (name, input) := DetectedCall(gem, mode, first).value;
    AsWrittenToolRoundFails(gem, convo, first, name, input, svc);
  }

  /** As written, no turn ever answers with a tool. */
  lemma AsWrittenNeverUsesTool(gem: Gem, req: ChatRequest, hasIndex: bool,
                               meta: Kb.Artifact<seq<Kb.ChunkRecord>>, vecs: Kb.Artifact<seq<Kb.Vector>>, svc: Services)
    requires vecs.Present? ==> Kb.Rectangular(vecs.value)
    ensures var (r, ps) := ChatSpec(gem, req, hasIndex, meta, vecs, svc, AsWrittenDispatch(svc.tools));
      r.Answered? ==> r.response.usedTool == None && |ps| == 1
  {
    var p := Prompt(gem, req, hasIndex, meta, vecs, svc);
    if p.Ok? {
      var convo := p.value;
      if Ask(gem, convo, svc).Ok? && DetectedCall(gem, req.toolsMode, Ask(gem, convo, svc).value).Some? {
        AsWrittenToolCallFails(gem, req.toolsMode, convo, svc);
      }
    }
  }

  /** As intended, a detected call runs the registered tool, feeds its result back and
      answers with the second reply. */
  lemma IntendedToolCallAnswers(gem: Gem, mode: ToolsMode, convo: seq<Message>, svc: Services)
    requires Ask(gem, convo, svc).Ok? && DetectedCall(gem, mode, Ask(gem, convo, svc).value).Some?
    ensures var first := Ask(gem, convo, svc).value;
      var (name, input) := DetectedCall(gem, mode, first).value;
      var convo2 := convo + [Message(Assistant, first), ToolMessage(name, Tools.RunTool(name, input, svc.tools))];
      && Reply(gem, mode, convo, svc, IntendedDispatch(svc.tools)).1 == [convo, convo2]
      && (Ask(gem, convo2, svc).Ok? ==>
            Reply(gem, mode, convo, svc, IntendedDispatch(svc.tools)).0
              == Answered(ChatResponse(Ask(gem, convo2, svc).value, Some(name), Some(input))))
  {
  }

  /** `kb_search` is offered to profiles but is not a registered tool: calling it, as
      intended, feeds back the unknown-tool message. */
  lemma KbSearchCallUnknown(input: string, env: Tools.Environment)
    ensures IntendedDispatch(env)(KbSearch, input) == Ok("Unknown tool: " + KbSearch)
  {
    Tools.KbSearchIsNotRegistered(input, env);
  }

  // ---------------------------------------------------------------------------
  // Lemmas: profiles

  /** `create_gem` copies the body and gives every profile a non-zero temperature:
      a zero becomes 0.2, anything else is kept. */
  lemma NewGemFields(body: GemCreate, id: string)
    ensures var g := NewGem(body, id);
      && g.id == id && g.name == body.name && g.systemPrompt == body.systemPrompt
      && g.tools == body.tools && g.model == body.model
      && g.temperature != 0.0
      && (body.temperature != 0.0 ==> g.temperature == body.temperature)
    ensures NewGem(GemCreate(body.name, temperature := 0.0), id).temperature == 0.2
    ensures NewGem(GemCreate(body.name), id) == Gem(id, body.name)
  {
  }

  /** After the registration the profile lists `kb_search`, keeps its earlier tools in
      front, and nothing else in the list changes. */
  lemma WithKbSearchEffect(gems: seq<Gem>, id: string)
    ensures |WithKbSearch(gems, id)| == |gems|
    ensures Store.FindGem(gems, id).None? ==> WithKbSearch(gems, id) == gems
    ensures Store.FindGem(gems, id).Some? ==>
      var i := Store.FirstMatch(gems, id).value;
      var g := WithKbSearch(gems, id)[i];
      && Store.FirstMatch(WithKbSearch(gems, id), id) == Some(i)
      && KbSearch in g.tools
      && gems[i].tools <= g.tools && |g.tools| <= |gems[i].tools| + 1
      && g == gems[i].(tools := g.tools)
      && forall j :: 0 <= j < |gems| && j != i ==> WithKbSearch(gems, id)[j] == gems[j]
  {
    var r := WithKbSearch(gems, id);
    if Store.FindGem(gems, id).Some? {
      var i := Store.FirstMatch(gems, id).value;
      var patch := KbSearchPatch(gems[i].tools);
      if patch.Some? {
        Store.UpdateTouchesFirstMatchOnly(gems, id, patch.value);
        Store.FirstMatchSameIds(gems, r, id);
        assert r[i].tools == gems[i].tools + [KbSearch];
        assert r[i].tools[|gems[i].tools|] == KbSearch;
      }
    }
  }

  /** Registering `kb_search` twice is registering it once. */
  lemma WithKbSearchIdempotent(gems: seq<Gem>, id: string)
    ensures WithKbSearch(WithKbSearch(gems, id), id) == WithKbSearch(gems, id)
  {
    WithKbSearchEffect(gems, id);
  }

  /** The upload's update, made with the profile it read, is the registration. */
  lemma RegisterIsWithKbSearch(gems: seq<Gem>, gem: Gem)
    requires Store.FindGem(gems, gem.id) == Some(gem)
    ensures WithKbSearch(gems, gem.id)
      == if KbSearch in gem.tools then gems
         else Store.Updated(gems, gem.id, GemUpdate(tools := Some(gem.tools + [KbSearch])))
  {
  }

  // ---------------------------------------------------------------------------
  // Lemmas: uploads

  /** The loop writes one path per non-empty part, each from a non-empty part. */
  lemma {:induction false} WrittenPathsCharacterised(files: seq<UploadFile>)
    ensures forall i :: 0 <= i < |files| && files[i].content != [] ==> TmpPath(files[i]) in WrittenPaths(files)
    ensures forall p :: p in WrittenPaths(files) ==>
      exists i :: 0 <= i < |files| && files[i].content != [] && p == TmpPath(files[i])
  {
    WrittenPathsComplete(files);
    WrittenPathsSound(files);
  }

  lemma {:induction false} WrittenPathsComplete(files: seq<UploadFile>)
    ensures forall i :: 0 <= i < |files| && files[i].content != [] ==> TmpPath(files[i]) in WrittenPaths(files)
    decreases |files|
  {
    if files != [] {
      var init, last := files[..|files| - 1], files[|files| - 1];
      WrittenPathsComplete(init);
      WrittenPathsLast(files);
      forall i | 0 <= i < |files| && files[i].content != [] ensures TmpPath(files[i]) in WrittenPaths(files) {
        if i < |init| {
          assert init[i] == files[i];
          assert TmpPath(files[i]) in WrittenPaths(init);
        } else {
          assert files[i] == last;
        }
      }
    }
  }

  lemma WrittenPathsLast(files: seq<UploadFile>)
    requires files != []
    ensures var last := files[|files| - 1];
      WrittenPaths(files) == WrittenPaths(files[..|files| - 1]) + (if last.content == [] then [] else [TmpPath(last)])
  {
  }

  lemma {:induction false} WrittenPathsSound(files: seq<UploadFile>)
    ensures forall p :: p in WrittenPaths(files) ==>
      exists i :: 0 <= i < |files| && files[i].content != [] && p == TmpPath(files[i])
    decreases |files|
  {
    if files != [] {
      var init, last := files[..|files| - 1], files[|files| - 1];
      WrittenPathsSound(init);
      WrittenPathsLast(files);
      forall p | p in WrittenPaths(files)
        ensures exists i :: 0 <= i < |files| && files[i].content != [] && p == TmpPath(files[i])
      {
        if p in WrittenPaths(init) {
          var i :| 0 <= i < |init| && init[i].content != [] && p == TmpPath(init[i]);
          assert files[i] == init[i];
        } else {
          assert p == TmpPath(last);
          assert files[|files| - 1] == last;
        }
      }
    }
  }

  /** As intended, ingestion gets exactly the written files, and the emptiness check
      fires exactly when every part was empty. */
  lemma UploadPathsWritten(files: seq<UploadFile>)
    ensures UploadPaths(files).Ok? ==> UploadPaths(files).value == WrittenPaths(files)
    ensures UploadPaths(files) == Err("No valid files to process") <==>
      files != [] && forall i :: 0 <= i < |files| ==> files[i].content == []
    ensures forall i :: 0 <= i < |files| && files[i].content != [] ==>
      UploadPaths(files).Ok? && TmpPath(files[i]) in UploadPaths(files).value
  {
    WrittenPathsCharacterised(files);
    if WrittenPaths(files) != [] {
      var p := WrittenPaths(files)[0];
      assert p in WrittenPaths(files);
    }
  }

  /** A client-chosen absolute file name is written where it points, not under `/tmp`. */
  lemma AbsoluteNameEscapesTmp(content: seq<bv8>)
    ensures TmpPath(UploadFile(Some("/etc/x"), content)) == "/etc/x"
  {
  }

  /** A missing or empty file name is stored as `/tmp/unnamed_file`. */
  lemma UnnamedPartPath(content: seq<bv8>)
    ensures TmpPath(UploadFile(None, content)) == "/tmp/unnamed_file"
    ensures TmpPath(UploadFile(Some(""), content)) == "/tmp/unnamed_file"
  {
  }

  /** As written, a first non-empty part and a second empty one hand ingestion only
      the second path, which the loop never wrote. */
  lemma AsWrittenIngestsUnwrittenFile()
    ensures var files := [UploadFile(Some("a.txt"), [120]), UploadFile(Some("b.txt"), [])];
      && UploadPathsAsWritten(files) == Ok(["/tmp/b.txt"])
      && WrittenPaths(files) == ["/tmp/a.txt"]
      && UploadPaths(files) == Ok(["/tmp/a.txt"])
  {
    var files := [UploadFile(Some("a.txt"), [120]), UploadFile(Some("b.txt"), [])];
    assert TmpPath(files[0]) == "/tmp/a.txt";
    assert TmpPath(files[1]) == "/tmp/b.txt";
    assert files[..1] == [files[0]];
    assert [files[0]][..0] == [];
    assert WrittenPaths([files[0]]) == [] + [TmpPath(files[0])];
    assert WrittenPaths(files) == WrittenPaths([files[0]]) + [];
  }

  /** As written, the emptiness check can never fire. */
  lemma AsWrittenNeverNoValidFiles(files: seq<UploadFile>)
    ensures UploadPathsAsWritten(files) != Err("No valid files to process")
    ensures files != [] ==> |UploadPathsAsWritten(files).value| == 1
  {
  }
}
