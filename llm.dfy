/** Provider selection, embedding-input sanitisation and the embedding fallback
    chain (app/llm.py). The environment variables become a `Config` value; every
    HTTP request becomes a call of an oracle function passed in by the caller. */
module Llm {
  import opened Wrappers
  import opened PyText
  import opened Models

  type Vector = seq<real>

  /** The environment the module reads at import time, with its defaults.
      `embedBackend == None` means EMBED_BACKEND is unset. */
  datatype Config = Config(
    llmBackend: string := "ollama",
    embedBackend: Option<string> := None,
    openaiApiKey: Option<string> := None,
    ollamaModel: string := "llama3.1:8b",
    openaiModel: string := "gpt-4o-mini",
    ollamaEmbedModel: string := "nomic-embed-text",
    openaiEmbedModel: string := "text-embedding-3-small")

  /** DEFAULT_BACKEND. */
  function DefaultBackend(cfg: Config): string {
    Lower(cfg.llmBackend)
  }

  /** EMBED_BACKEND: its own variable if set, else DEFAULT_BACKEND, lowercased. */
  function EmbedBackend(cfg: Config): string {
    Lower(cfg.embedBackend.GetOr(DefaultBackend(cfg)))
  }

  /** Python truthiness of an optional string: present and non-empty. */
  predicate Truthy(o: Option<string>) {
    o.Some? && o.value != ""
  }

  /** `a or b` for an optional string and a default. */
  function OrElse(o: Option<string>, default: string): string {
    if Truthy(o) then o.value else default
  }

  predicate HasApiKey(cfg: Config) {
    Truthy(cfg.openaiApiKey)
  }

  /** `_pick_backend`: the chat backend to use for a requested name. */
  function PickBackend(cfg: Config, requested: Option<string>): (b: string)
    ensures b == "ollama" || b == "openai"
    ensures b == "openai" <==> Lower(OrElse(requested, DefaultBackend(cfg))) == "openai" && HasApiKey(cfg)
  {
    var name := Lower(OrElse(requested, DefaultBackend(cfg)));
    if name == "openai" && !HasApiKey(cfg) then "ollama"
    else if name != "ollama" && name != "openai" then "ollama"
    else name
  }

  // ---------------------------------------------------------------------------
  // Sanitisation

  const MaxEmbedLen: int := 8000

  /** The class `[\x00-\x08\x0B\x0C\x0E-\x1F]`. */
  predicate IsControl(c: char) {
    ('\0' <= c <= '\U{8}') || c == '\U{B}' || c == '\U{C}' || ('\U{E}' <= c <= '\U{1F}')
  }

  predicate NoControl(s: string) {
    forall i :: 0 <= i < |s| ==> !IsControl(s[i])
  }

  function DropControls(s: string): (r: string)
    ensures |r| <= |s|
    ensures s != [] && IsControl(s[0]) ==> |r| < |s|
  {
    if s != [] && IsControl(s[0]) then DropControls(s[1..]) else s
  }

  /** `_CONTROL_RE.sub(" ", s)`: every maximal run of control characters becomes one space. */
  function ReplaceControls(s: string): (r: string)
    ensures NoControl(r)
    decreases |s|
  {
    if s == [] then []
    else if IsControl(s[0]) then " " + ReplaceControls(DropControls(s))
    else [s[0]] + ReplaceControls(s[1..])
  }

  /** `_sanitize_for_embed(s, max_len)`. */
  function Sanitize(s: string, maxLen: int := MaxEmbedLen): string {
    if s == "" then "."
    else
      var c := Strip(CollapseSpaces(ReplaceControls(s)));
      if c == "" then "."
      else if |c| > maxLen then PySlice(c, 0, maxLen)
      else c
  }

  /** The sanitised text in split/join normal form. */
  function Normalized(s: string): string {
    Join(Words(ReplaceControls(s)), " ")
  }

  /** The regex pipeline is the same as normalising the words of the control-free text. */
  lemma SanitizeIsNormalized(s: string, maxLen: int)
    ensures var j := Normalized(s);
      Sanitize(s, maxLen) == if j == "" then "." else if |j| > maxLen then PySlice(j, 0, maxLen) else j
  {
    StripCollapseIsJoinWords(ReplaceControls(s));
  }

  lemma {:induction false} WordsNoControl(s: string)
    requires NoControl(s)
    ensures forall i :: 0 <= i < |Words(s)| ==> NoControl(Words(s)[i])
    decreases |s|
  {
    if s != [] {
      if IsSpace(s[0]) {
        WordsNoControl(s[1..]);
      } else {
        var w := TakeWord(s);
        assert forall k :: 0 <= k < |w| ==> w[k] == s[k];
        WordsNoControl(s[|w|..]);
      }
    }
  }

  lemma {:induction false} JoinNoControl(ws: seq<string>)
    requires forall i :: 0 <= i < |ws| ==> NoControl(ws[i])
    ensures NoControl(Join(ws, " "))
  {
    if |ws| > 1 {
      JoinNoControl(ws[1..]);
    }
  }

  /** What the sanitiser guarantees for a positive length bound: a non-empty string
      of at most maxLen characters, without control characters, whose only whitespace
      is single plain spaces with none in front; `"."` when the text has no words, and
      otherwise a prefix of the normalised text. */
  lemma SanitizeProperties(s: string, maxLen: int)
    requires maxLen >= 1
    ensures var r := Sanitize(s, maxLen);
      && r != "" && |r| <= maxLen
      && NoControl(r)
      && NoDoubleSpace(r) && OnlyPlainSpaces(r) && !IsSpace(r[0])
      && (Words(ReplaceControls(s)) == [] ==> r == ".")
      && (Words(ReplaceControls(s)) != [] ==> r <= Normalized(s))
  {
    var ws := Words(ReplaceControls(s));
    var j := Normalized(s);
    SanitizeIsNormalized(s, maxLen);
    JoinShape(ws);
    WordsNoControl(ReplaceControls(s));
    JoinNoControl(ws);
    if ws != [] {
      JoinNonEmpty(ws);
    }
    var r := Sanitize(s, maxLen);
    assert j == "" <==> ws == [] by {
      if ws != [] { JoinNonEmpty(ws); }
    }
    if j != "" && |j| > maxLen {
      PySlicePrefix(j, maxLen);
      PrefixShape(j, r);
      assert forall i :: 0 <= i < |r| ==> r[i] == j[i];
    }
  }

  /** Without truncation the sanitiser keeps every word, in order. */
  lemma SanitizeKeepsWords(s: string, maxLen: int)
    requires |Normalized(s)| <= maxLen
    requires Words(ReplaceControls(s)) != []
    ensures Words(Sanitize(s, maxLen)) == Words(ReplaceControls(s))
  {
    var ws := Words(ReplaceControls(s));
    SanitizeIsNormalized(s, maxLen);
    JoinNonEmpty(ws);
    WordsOfJoin(ws);
  }

  // ---------------------------------------------------------------------------
  // Chat model selection

  /** The backend and model a chat call goes to: `_pick_backend(DEFAULT_BACKEND)`, and
      the override when it is given, else that backend's configured model. */
  function ChatTarget(cfg: Config, modelOverride: Option<string>): (t: (string, string))
    ensures t.0 == "ollama" || t.0 == "openai"
    ensures Truthy(modelOverride) ==> t.1 == modelOverride.value
    ensures !Truthy(modelOverride) ==> t.1 == (if t.0 == "ollama" then cfg.ollamaModel else cfg.openaiModel)
  {
    var backend := PickBackend(cfg, Some(DefaultBackend(cfg)));
    (backend, OrElse(modelOverride, if backend == "ollama" then cfg.ollamaModel else cfg.openaiModel))
  }

  /** One chat request to a backend: (model, messages, temperature) to the reply text
      or the HTTP failure. */
  type ChatBackend = (string, seq<Message>, real) -> Result<string, string>

  /** `chat(messages, temperature, model_override)`. */
  function Chat(cfg: Config, messages: seq<Message>, temperature: real, modelOverride: Option<string>,
                ollama: ChatBackend, openai: ChatBackend): Result<string, string>
  {
    var (backend, model) := ChatTarget(cfg, modelOverride);
    if backend == "ollama" then ollama(model, messages, temperature)
    else openai(model, messages, temperature)
  }

  // ---------------------------------------------------------------------------
  // Embeddings

  /** The two request-field names tried for the local embedding endpoint. */
  datatype Field = Prompt | Input

  /** One POST to the local embedding endpoint: (model, field, text) to the vector the
      response carries (`[]` when it carries no non-empty list), or the HTTP failure. */
  type OllamaEmbedder = (string, Field, string) -> Result<Vector, string>

  /** The batch request to the hosted endpoint: (model, texts) to the vectors of the
      response, in the response's order, or the HTTP failure. */
  type OpenAIEmbedder = (string, seq<string>) -> Result<seq<Vector>, string>

  const ZeroVectorDim: nat := 768
  const FallbackCandidates: seq<string> := ["mxbai-embed-large", "nomic-embed-text"]

  function Zeros(n: nat): (v: Vector)
    ensures |v| == n && forall i :: 0 <= i < n ==> v[i] == 0.0
  {
    seq(n, _ => 0.0)
  }

  /** The fallback models: the fixed candidates other than the primary model, in order. */
  function Fallbacks(primary: string, candidates: seq<string> := FallbackCandidates): (r: seq<string>)
    ensures primary !in r
    ensures forall m :: m in r <==> m in candidates && m != primary
  {
    if candidates == [] then []
    else if candidates[0] == primary then Fallbacks(primary, candidates[1..])
    else [candidates[0]] + Fallbacks(primary, candidates[1..])
  }

  /** `_one(model, text)` on the given fields: the first non-empty vector, `[]` when none. */
  function TryFields(model: string, fields: seq<Field>, text: string, ollama: OllamaEmbedder): Result<Vector, string> {
    if fields == [] then Ok([])
    else match ollama(model, fields[0], text)
      case Err(e) => Err(e)
      case Ok(v) => if v != [] then Ok(v) else TryFields(model, fields[1..], text, ollama)
  }

  function TryModelSpec(model: string, text: string, ollama: OllamaEmbedder): Result<Vector, string> {
    TryFields(model, [Prompt, Input], text, ollama)
  }

  /** Models tried in order until one yields a non-empty vector; `[]` when none does. */
  function FirstVector(models: seq<string>, text: string, ollama: OllamaEmbedder): Result<Vector, string> {
    if models == [] then Ok([])
    else match TryModelSpec(models[0], text, ollama)
      case Err(e) => Err(e)
      case Ok(v) => if v != [] then Ok(v) else FirstVector(models[1..], text, ollama)
  }

  /** The vector emitted for one sanitised text: the first hit along the primary
      model and its fallbacks, else the zero vector. */
  function ItemVector(primary: string, text: string, ollama: OllamaEmbedder): Result<Vector, string> {
    match FirstVector([primary] + Fallbacks(primary), text, ollama)
    case Err(e) => Err(e)
    case Ok(v) => if v == [] then Ok(Zeros(ZeroVectorDim)) else Ok(v)
  }

  /** The vectors of all texts, stopping at the first HTTP failure. */
  function EmbedAll(texts: seq<string>, primary: string, ollama: OllamaEmbedder): Result<seq<Vector>, string>
    decreases |texts|
  {
    if texts == [] then Ok([])
    else match EmbedAll(texts[..|texts| - 1], primary, ollama)
      case Err(e) => Err(e)
      case Ok(vs) =>
        match ItemVector(primary, texts[|texts| - 1], ollama)
        case Err(e) => Err(e)
        case Ok(v) => Ok(vs + [v])
  }

  /** The backend `embed` uses: EMBED_BACKEND, with "openai" degraded to the local
      runtime when no key is set. Any other name also takes the local path. */
  predicate UsesOpenAIEmbeddings(cfg: Config) {
    EmbedBackend(cfg) == "openai" && HasApiKey(cfg)
  }

  function SanitizeAll(texts: seq<string>): (r: seq<string>)
    ensures |r| == |texts| && forall i :: 0 <= i < |texts| ==> r[i] == Sanitize(texts[i])
  {
    seq(|texts|, i requires 0 <= i < |texts| => Sanitize(texts[i]))
  }

  function EmbedSpec(cfg: Config, texts: seq<string>, modelOverride: Option<string>,
                     ollama: OllamaEmbedder, openai: OpenAIEmbedder): Result<seq<Vector>, string> {
    if UsesOpenAIEmbeddings(cfg) then openai(OrElse(modelOverride, cfg.openaiEmbedModel), SanitizeAll(texts))
    else EmbedAll(SanitizeAll(texts), OrElse(modelOverride, cfg.ollamaEmbedModel), ollama)
  }

  /** `_one(model, text)`: the `prompt` field first, then `input`. */
  method TryModel(model: string, text: string, ollama: OllamaEmbedder) returns (r: Result<Vector, string>)
    ensures r == TryModelSpec(model, text, ollama)
  {
    var fields := [Prompt, Input];
    for k := 0 to |fields|
      invariant TryFields(model, fields[k..], text, ollama) == TryFields(model, fields, text, ollama)
    {
      var resp := ollama(model, fields[k], text);
      assert fields[k..][1..] == fields[k + 1..];
      if resp.Err? {
        return Err(resp.error);
      }
      if resp.value != [] {
        return Ok(resp.value);
      }
    }
    return Ok([]);
  }

  /** The local-runtime branch of `embed`: one request chain per text, in order. */
  method EmbedOllama(sanitized: seq<string>, primary: string, ollama: OllamaEmbedder)
    returns (r: Result<seq<Vector>, string>)
    ensures r == EmbedAll(sanitized, primary, ollama)
  {
    var fallbacks := Fallbacks(primary);
    var out: seq<Vector> := [];
    for t := 0 to |sanitized|
      invariant EmbedAll(sanitized[..t], primary, ollama) == Ok(out)
    {
      assert sanitized[..t + 1][..t] == sanitized[..t];
      var text := sanitized[t];
      var v := TryModel(primary, text, ollama);
      if v.Err? {
        EmbedAllStopsAtFailure(sanitized, t + 1, primary, ollama);
        return Err(v.error);
      }
      if v.value == [] {
        for f := 0 to |fallbacks|
          invariant v == Ok([])
          invariant FirstVector(fallbacks[f..], text, ollama) == FirstVector([primary] + fallbacks, text, ollama)
        {
          assert fallbacks[f..][1..] == fallbacks[f + 1..];
          v := TryModel(fallbacks[f], text, ollama);
          if v.Err? {
            EmbedAllStopsAtFailure(sanitized, t + 1, primary, ollama);
            return Err(v.error);
          }
          if v.value != [] {
            break;
          }
        }
      }
      if v.value == [] {
        v := Ok(Zeros(ZeroVectorDim));
      }
      out := out + [v.value];
    }
    assert sanitized[..|sanitized|] == sanitized;
    r := Ok(out);
  }

  /** `embed(texts, model_override)`. */
  method Embed(cfg: Config, texts: seq<string>, modelOverride: Option<string>,
               ollama: OllamaEmbedder, openai: OpenAIEmbedder) returns (r: Result<seq<Vector>, string>)
    ensures r == EmbedSpec(cfg, texts, modelOverride, ollama, openai)
  {
    var backend := EmbedBackend(cfg);
    if backend == "openai" && !HasApiKey(cfg) {
      backend := "ollama";
    }
    var sanitized := SanitizeAll(texts);
    if backend == "openai" {
      r := openai(OrElse(modelOverride, cfg.openaiEmbedModel), sanitized);
      return;
    }
    var primary := OrElse(modelOverride, cfg.ollamaEmbedModel);
    r := EmbedOllama(sanitized, primary, ollama);
  }

  /** `embed_one(text)`: the first vector of `embed([text])`; an empty batch reply is
      an index error. */
  method EmbedOne(cfg: Config, text: string, modelOverride: Option<string>,
                  ollama: OllamaEmbedder, openai: OpenAIEmbedder) returns (r: Result<Vector, string>)
    ensures match EmbedSpec(cfg, [text], modelOverride, ollama, openai)
      case Err(e) => r == Err(e)
      case Ok(vs) => r == if vs == [] then Err("list index out of range") else Ok(vs[0])
  {
    var vs := Embed(cfg, [text], modelOverride, ollama, openai);
    if vs.Err? {
      return Err(vs.error);
    }
    if vs.value == [] {
      return Err("list index out of range");
    }
    return Ok(vs.value[0]);
  }

  // ---------------------------------------------------------------------------
  // Lemmas

  /** The local branch returns one vector per text, in input order, or the first failure. */
  lemma {:induction false} EmbedAllPointwise(texts: seq<string>, primary: string, ollama: OllamaEmbedder)
    ensures EmbedAll(texts, primary, ollama).Ok? <==> forall i :: 0 <= i < |texts| ==> ItemVector(primary, texts[i], ollama).Ok?
    ensures EmbedAll(texts, primary, ollama).Ok? ==>
      var vs := EmbedAll(texts, primary, ollama).value;
      |vs| == |texts| && forall i :: 0 <= i < |texts| ==> vs[i] == ItemVector(primary, texts[i], ollama).value
    decreases |texts|
  {
    if texts != [] {
      var init := texts[..|texts| - 1];
      EmbedAllPointwise(init, primary, ollama);
      assert forall i :: 0 <= i < |init| ==> init[i] == texts[i];
    }
  }

  /** Once a text's request chain fails, the whole batch fails with that error. */
  lemma {:induction false} EmbedAllStopsAtFailure(texts: seq<string>, n: nat, primary: string, ollama: OllamaEmbedder)
    requires n <= |texts|
    requires EmbedAll(texts[..n], primary, ollama).Err?
    ensures EmbedAll(texts, primary, ollama) == EmbedAll(texts[..n], primary, ollama)
    decreases |texts| - n
  {
    if n < |texts| {
      assert texts[..n + 1][..n] == texts[..n];
      EmbedAllStopsAtFailure(texts, n + 1, primary, ollama);
    } else {
      assert texts[..n] == texts;
    }
  }

  /** Every vector the local branch returns is non-empty: a model's hit or the zero vector. */
  lemma ItemVectorNonEmpty(primary: string, text: string, ollama: OllamaEmbedder)
    ensures ItemVector(primary, text, ollama).Ok? ==> ItemVector(primary, text, ollama).value != []
  {
  }

  /** The primary model's answer wins when it has one. */
  lemma PrimaryFirst(primary: string, text: string, ollama: OllamaEmbedder)
    requires TryModelSpec(primary, text, ollama).Ok? && TryModelSpec(primary, text, ollama).value != []
    ensures ItemVector(primary, text, ollama) == TryModelSpec(primary, text, ollama)
  {
  }

  /** Only when every model of the chain answers with nothing is the zero vector emitted. */
  lemma {:induction false} ZeroVectorOnlyWhenAllEmpty(models: seq<string>, text: string, ollama: OllamaEmbedder)
    ensures FirstVector(models, text, ollama) == Ok([]) <==>
      forall m :: 0 <= m < |models| ==> TryModelSpec(models[m], text, ollama) == Ok([])
  {
    if models != [] {
      ZeroVectorOnlyWhenAllEmpty(models[1..], text, ollama);
      assert forall m :: 0 < m < |models| ==> models[m] == models[1..][m - 1];
    }
  }

  /** A model attempt accepts the `prompt` reply when it is non-empty, else the `input` reply. */
  lemma TryModelOrder(model: string, text: string, ollama: OllamaEmbedder)
    ensures var p, i := ollama(model, Prompt, text), ollama(model, Input, text);
      TryModelSpec(model, text, ollama) ==
        if p.Err? then Err(p.error)
        else if p.value != [] then p
        else if i.Err? then Err(i.error)
        else i
  {
    assert [Prompt, Input][1..] == [Input];
    assert [Input][1..] == [];
    assert TryFields(model, [], text, ollama) == Ok([]);
    var i := ollama(model, Input, text);
    var tail := TryFields(model, [Input], text, ollama);
    assert tail == if i.Err? then Err(i.error) else if i.value != [] then i else Ok([]);
  }

  /** The fallback chain: the primary first, then the other candidates, no model twice. */
  lemma FallbackChain(primary: string)
    ensures Fallbacks(primary) == if primary == "mxbai-embed-large" then ["nomic-embed-text"]
      else if primary == "nomic-embed-text" then ["mxbai-embed-large"]
      else ["mxbai-embed-large", "nomic-embed-text"]
  {
    assert FallbackCandidates[1..] == ["nomic-embed-text"];
    var c: seq<string> := ["nomic-embed-text"];
    assert c[0] == "nomic-embed-text" && c[1..] == [];
    assert Fallbacks(primary, []) == [];
    var last := Fallbacks(primary, c);
    assert last == if primary == "nomic-embed-text" then [] else ["nomic-embed-text"];
  }

  /** With the hosted backend configured but no key, embedding takes the local path. */
  lemma NoKeyMeansLocal(cfg: Config, texts: seq<string>, modelOverride: Option<string>,
                        ollama: OllamaEmbedder, openai: OpenAIEmbedder)
    requires !HasApiKey(cfg)
    ensures EmbedSpec(cfg, texts, modelOverride, ollama, openai)
      == EmbedAll(SanitizeAll(texts), OrElse(modelOverride, cfg.ollamaEmbedModel), ollama)
  {
  }

  /** On the local path `embed` returns exactly one vector per input text, each the
      vector of its own sanitised text. */
  lemma LocalEmbedOnePerText(cfg: Config, texts: seq<string>, modelOverride: Option<string>,
                             ollama: OllamaEmbedder, openai: OpenAIEmbedder)
    requires !UsesOpenAIEmbeddings(cfg)
    requires EmbedSpec(cfg, texts, modelOverride, ollama, openai).Ok?
    ensures var vs := EmbedSpec(cfg, texts, modelOverride, ollama, openai).value;
      var primary := OrElse(modelOverride, cfg.ollamaEmbedModel);
      |vs| == |texts|
      && forall i :: 0 <= i < |texts| ==> ItemVector(primary, Sanitize(texts[i]), ollama) == Ok(vs[i]) && vs[i] != []
  {
    var primary := OrElse(modelOverride, cfg.ollamaEmbedModel);
    EmbedAllPointwise(SanitizeAll(texts), primary, ollama);
  }

  /** `pick_backend` decisions: the default applies when no name is given; an
      unknown name and a keyless "openai" both become "ollama". */
  lemma PickBackendCases(cfg: Config, name: string)
    ensures PickBackend(cfg, None) == PickBackend(cfg, Some(""))
    ensures !HasApiKey(cfg) ==> PickBackend(cfg, Some(name)) == "ollama"
    ensures name != "" && Lower(name) != "openai" ==> PickBackend(cfg, Some(name)) == "ollama"
  {
  }
}
