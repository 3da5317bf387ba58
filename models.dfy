/** The records shared by the store, the knowledge base and the chat endpoint
    (app/models.py). Python floats are modelled as `real`; `Optional[...]` as `Option`. */
module Models {
  import opened Wrappers

  /** The four literal roles a message may carry. */
  datatype Role = System | User | Assistant | Tool {
    function Name(): string {
      match this
      case System => "system"
      case User => "user"
      case Assistant => "assistant"
      case Tool => "tool"
    }
  }

  /** Validation of a role literal: accepts exactly the four names. */
  function ParseRole(s: string): (r: Option<Role>)
    ensures r.Some? ==> r.value.Name() == s
  {
    if s == "system" then Some(System)
    else if s == "user" then Some(User)
    else if s == "assistant" then Some(Assistant)
    else if s == "tool" then Some(Tool)
    else None
  }

  datatype Message = Message(role: Role, content: string)

  const DefaultSystemPrompt: string := "You are a helpful assistant."
  const DefaultTemperature: real := 0.2

  /** An agent profile. `model`, when set, overrides the backend's default chat model. */
  datatype Gem = Gem(
    id: string,
    name: string,
    systemPrompt: string := DefaultSystemPrompt,
    tools: seq<string> := [],
    temperature: real := DefaultTemperature,
    model: Option<string> := None)

  /** The body of a create request: a profile without an id. */
  datatype GemCreate = GemCreate(
    name: string,
    systemPrompt: string := DefaultSystemPrompt,
    tools: seq<string> := [],
    temperature: real := DefaultTemperature,
    model: Option<string> := None)

  /** A patch: every field optional, `None` meaning "leave unchanged". */
  datatype GemUpdate = GemUpdate(
    name: Option<string> := None,
    systemPrompt: Option<string> := None,
    tools: Option<seq<string>> := None,
    temperature: Option<real> := None,
    model: Option<string> := None)

  datatype ToolsMode = Off | Auto {
    function Name(): string {
      match this
      case Off => "off"
      case Auto => "auto"
    }
  }

  function ParseToolsMode(s: string): (r: Option<ToolsMode>)
    ensures r.Some? ==> r.value.Name() == s
  {
    if s == "off" then Some(Off) else if s == "auto" then Some(Auto) else None
  }

  datatype ChatRequest = ChatRequest(gemId: string, messages: seq<Message>, toolsMode: ToolsMode := Auto)

  datatype ChatResponse = ChatResponse(content: string, usedTool: Option<string> := None, toolInput: Option<string> := None)

  // ---------------------------------------------------------------------------
  // Lemmas

  /** The role literal round-trips, and nothing but the four names is accepted. */
  lemma RoleLiterals(s: string)
    ensures (forall r: Role :: ParseRole(r.Name()) == Some(r))
    ensures ParseRole(s).Some? <==> s in {"system", "user", "assistant", "tool"}
  {
    assert forall r: Role :: ParseRole(r.Name()) == Some(r) by {
      forall r: Role ensures ParseRole(r.Name()) == Some(r) {
        match r
        case System =>
        case User =>
        case Assistant =>
        case Tool =>
      }
    }
  }

  lemma ToolsModeLiterals(s: string)
    ensures ParseToolsMode("off") == Some(Off) && ParseToolsMode("auto") == Some(Auto)
    ensures ParseToolsMode(s).Some? <==> s == "off" || s == "auto"
  {
  }

  /** The defaults a profile, a patch, a request and a response get when fields are omitted. */
  lemma Defaults(id: string, name: string, gemId: string, msgs: seq<Message>, content: string)
    ensures var g := Gem(id, name);
      g.systemPrompt == "You are a helpful assistant." && g.tools == []
      && g.temperature == 0.2 && g.model == None
    ensures var c := GemCreate(name);
      c.systemPrompt == "You are a helpful assistant." && c.tools == []
      && c.temperature == 0.2 && c.model == None
    ensures GemUpdate() == GemUpdate(None, None, None, None, None)
    ensures ChatRequest(gemId, msgs).toolsMode == Auto
    ensures var r := ChatResponse(content); r.usedTool == None && r.toolInput == None
  {
  }
}
