// ai/anthropic_provider.py: model configuration fallback, request assembly and reply
// handling of generate_response, the reply validator and the chat-context prompt.
module Provider {
  import opened Wrappers
  import opened Text
  import opened Json
  import opened Base
  import Settings
  import opened Components

  /** What generate_response reads from its context dictionary. Absent keys are None / []. */
  datatype Context = Context(style: Option<SessionStyle>, modelConfig: Option<Value>,
                             translationExamples: seq<Example>, history: seq<Message>)

  /** The arguments of client.messages.create. */
  datatype Request = Request(model: Value, messages: seq<Message>, system: string, parameters: map<string, Value>)

  /** What the Anthropic client does with a request: a reply, an APIError, or another
      exception (an unknown keyword among the parameters, for instance), each with its str(). */
  datatype ClientReply = Reply(raw: RawResponse) | ApiError(message: string) | OtherError(message: string)

  /** The external services a provider call depends on: the API client and json.loads. */
  datatype Backend = Backend(client: Request -> ClientReply, decode: JsonDecoder)

  /** _get_model_config's built-in fallback. */
  function DefaultModelConfig(): Value {
    Settings.ModelEntry(Settings.HAIKU, 0.7, 1000)
  }

  /** _get_model_config: a configuration with both "model" and "parameters" is used as it is,
      anything else falls back to the default. The membership test is Python's `in`, so a
      string value is searched for substrings and a list for elements; a number or boolean
      makes `in` raise. */
  function GetModelConfig(config: Option<Value>): (r: Result<Value>)
    ensures config.Some? && Settings.IsModelConfig(config.value) ==> r == Success(config.value)
    ensures config.None? || !Truthy(config.value) ==> r == Success(DefaultModelConfig())
    ensures r.Success? && r.value.Obj? ==> Settings.IsModelConfig(r.value)
    ensures config.Some? && Truthy(config.value) && (config.value.Bool? || config.value.Int? || config.value.Float?)
            ==> r == Failure("argument of type '" + TypeName(config.value) + "' is not iterable")
  {
    match config
    case None => Success(DefaultModelConfig())
    case Some(v) =>
      if !Truthy(v) then Success(DefaultModelConfig())
      else
        match v
        case Obj(m) => if "model" in m && "parameters" in m then Success(v) else Success(DefaultModelConfig())
        case Str(s) =>
          if Contains(s, "model") && Contains(s, "parameters") then Failure("'str' object has no attribute 'copy'")
          else Success(DefaultModelConfig())
        case Arr(a) => if Str("model") in a && Str("parameters") in a then Success(v) else Success(DefaultModelConfig())
        case _ => Failure("argument of type '" + TypeName(v) + "' is not iterable")
  }

  const NOT_A_DICT := "list indices must be integers or slices, not str"
  /** How CPython names client.messages.create in the TypeErrors of a call to it. */
  const CREATE_CALL := "anthropic.resources.messages.Messages.create()"
  /** The keywords generate_response passes explicitly before **params. */
  const EXPLICIT_KEYWORDS := ["model", "messages", "system"]

  /** str() of the TypeError for **params when params is not a dictionary. */
  function NotAMapping(params: Value): string {
    CREATE_CALL + " argument after ** must be a mapping, not " + TypeName(params)
  }

  /** str() of the TypeError for a key of params that repeats an explicit keyword. */
  function DuplicateKeyword(k: string): string {
    CREATE_CALL + " got multiple values for keyword argument '" + k + "'"
  }

  /** The first explicit keyword that params repeats, if any. */
  function RepeatedKeyword(params: map<string, Value>): (r: Option<string>)
    ensures r.None? <==> forall k :: k in EXPLICIT_KEYWORDS ==> k !in params
    ensures r.Some? ==> r.value in EXPLICIT_KEYWORDS && r.value in params
  {
    if "model" in params then Some("model")
    else if "messages" in params then Some("messages")
    else if "system" in params then Some("system")
    else None
  }

  /** The request generate_response sends, or the reason it fails before sending one. */
  function BuildRequest(prompt: string, ctx: Context): (r: Result<Request>)
    ensures r.Success? ==> |r.value.messages| == Min(MAX_MESSAGES, |ctx.history|) + 1
    ensures r.Success? ==> r.value.messages[..|r.value.messages| - 1] == LastN(ctx.history, MAX_MESSAGES)
    ensures r.Success? ==> r.value.messages[|r.value.messages| - 1] == Message(USER, prompt)
    ensures r.Success? ==> r.value.system == Join(PromptParts(ctx.style, ctx.translationExamples), "\n\n")
    ensures r.Success? ==> forall k :: k in EXPLICIT_KEYWORDS ==> k !in r.value.parameters
    ensures GetModelConfig(ctx.modelConfig).Success? && GetModelConfig(ctx.modelConfig).value.Obj?
            && !GetModelConfig(ctx.modelConfig).value.fields["parameters"].Obj? ==>
              r == Failure(NotAMapping(GetModelConfig(ctx.modelConfig).value.fields["parameters"]))
  {
    match GetModelConfig(ctx.modelConfig)
    case Failure(e) => Failure(e)
    case Success(config) =>
      if !config.Obj? then Failure(NOT_A_DICT)
      else
        var params := config.fields["parameters"];
        if !params.Obj? then Failure(NotAMapping(params))
        else if RepeatedKeyword(params.fields).Some? then Failure(DuplicateKeyword(RepeatedKeyword(params.fields).value))
        else
          var messages := LastN(ctx.history, MAX_MESSAGES) + [Message(USER, prompt)];
          Success(Request(config.fields["model"], messages,
                          Join(PromptParts(ctx.style, ctx.translationExamples), "\n\n"), params.fields))
  }

  /** The Response generate_response returns for a raw reply. */
  function ReplyMetadata(config: Value, raw: RawResponse, parsed: ParsedResponse): map<string, Value>
    requires config.Obj? && "model" in config.fields
  {
    map["model" := config.fields["model"], "finish_reason" := raw.stopReason, "usage" := raw.usage,
        "style_specific" := Obj(parsed.metadata), "configuration" := config]
  }

  /** generate_response as a value: the reply to the request of BuildRequest, or the message
      of the ProviderException it raises. */
  function Respond(prompt: string, ctx: Context, backend: Backend): Result<Response> {
    match BuildRequest(prompt, ctx)
    case Failure(e) => Failure("Unexpected error: " + e)
    case Success(req) =>
      match backend.client(req)
      case ApiError(m) => Failure("Error calling Anthropic API: " + m)
      case OtherError(m) => Failure("Unexpected error: " + m)
      case Reply(raw) =>
        match Parse(raw, backend.decode)
        case Failure(e) => Failure("Unexpected error: " + e)
        case Success(parsed) =>
          var config := GetModelConfig(ctx.modelConfig).value;
          Success(Response(parsed.content, ReplyMetadata(config, raw, parsed)))
  }

  /** generate_response: choose the configuration, build the system prompt and the trimmed
      message list, call the client and parse its reply. */
  method GenerateResponse(prompt: string, ctx: Context, backend: Backend) returns (r: Result<Response>)
    ensures r == Respond(prompt, ctx, backend)
  {
    var config := GetModelConfig(ctx.modelConfig);
    if config.Failure? {
      return Failure("Unexpected error: " + config.error);
    }
    var system := BuildSystemPrompt(ctx.style, ctx.translationExamples);
    var messages := PrepareMessages(ctx.history);
    assert messages == LastN(ctx.history, MAX_MESSAGES);
    messages := messages + [Message(USER, prompt)];
    var model := config.value;
    if !model.Obj? {
      return Failure("Unexpected error: " + NOT_A_DICT);
    }
    var params := model.fields["parameters"];
    if !params.Obj? {
      return Failure("Unexpected error: " + NotAMapping(params));
    }
    var repeated := RepeatedKeyword(params.fields);
    if repeated.Some? {
      return Failure("Unexpected error: " + DuplicateKeyword(repeated.value));
    }
    var request := Request(model.fields["model"], messages, system, params.fields);
    var reply := backend.client(request);
    match reply
    case ApiError(m) =>
      return Failure("Error calling Anthropic API: " + m);
    case OtherError(m) =>
      return Failure("Unexpected error: " + m);
    case Reply(raw) =>
      var parsed := Parse(raw, backend.decode);
      if parsed.Failure? {
        return Failure("Unexpected error: " + parsed.error);
      }
      r := Success(Response(parsed.value.content, ReplyMetadata(model, raw, parsed.value)));
  }

  /** A reply's content is the parsed text of what the client answered to BuildRequest. */
  lemma RespondAnswersRequest(prompt: string, ctx: Context, backend: Backend)
    requires Respond(prompt, ctx, backend).Success?
    ensures BuildRequest(prompt, ctx).Success?
    ensures backend.client(BuildRequest(prompt, ctx).value).Reply?
    ensures Parse(backend.client(BuildRequest(prompt, ctx).value).raw, backend.decode).Success?
    ensures Respond(prompt, ctx, backend).value.content
            == Parse(backend.client(BuildRequest(prompt, ctx).value).raw, backend.decode).value.content
  {
  }

  /** An unusable configuration never reaches the client; a usable one always does. */
  lemma RequestBuiltForUsableConfig(prompt: string, ctx: Context)
    requires ctx.modelConfig.Some? && Settings.IsModelConfig(ctx.modelConfig.value)
    ensures BuildRequest(prompt, ctx).Success? <==>
              ctx.modelConfig.value.fields["parameters"].Obj?
              && forall k :: k in EXPLICIT_KEYWORDS ==> k !in ctx.modelConfig.value.fields["parameters"].fields
    ensures ctx.modelConfig.value.fields["parameters"].Obj?
            && RepeatedKeyword(ctx.modelConfig.value.fields["parameters"].fields).Some? ==>
              BuildRequest(prompt, ctx)
              == Failure(DuplicateKeyword(RepeatedKeyword(ctx.modelConfig.value.fields["parameters"].fields).value))
    ensures BuildRequest(prompt, ctx).Success? ==> BuildRequest(prompt, ctx).value.model == ctx.modelConfig.value.fields["model"]
  {
  }

  /** With no usable configuration the default Haiku model is requested. */
  lemma RequestFallsBackToHaiku(prompt: string, ctx: Context)
    requires ctx.modelConfig.None? || !Truthy(ctx.modelConfig.value)
    ensures BuildRequest(prompt, ctx).Success?
    ensures BuildRequest(prompt, ctx).value.model == Str(Settings.HAIKU)
    ensures BuildRequest(prompt, ctx).value.parameters == map["temperature" := Float(0.7), "max_tokens" := Int(1000)]
  {
  }

  // ---- reply validation ----

  const COMMON_ITALIAN_WORDS: set<string> :=
    {"il", "lo", "la", "i", "gli", "le", "un", "uno", "una",
     "e", "ed", "o", "ma", "se", "perché", "quando", "come",
     "sono", "sei", "è", "siamo", "siete", "hanno"}

  function CommonWordsFound(text: string): set<string> {
    set w | w in Words(Lower(text)) && w in COMMON_ITALIAN_WORDS
  }

  /** _is_italian: at least two distinct common Italian words among the lower-cased words. */
  predicate IsItalian(text: string) {
    |CommonWordsFound(text)| >= 2
  }

  /** The heuristic holds exactly when two different common words occur. */
  lemma IsItalianWitnesses(text: string)
    ensures IsItalian(text) <==>
              exists w1, w2 :: w1 != w2 && w1 in CommonWordsFound(text) && w2 in CommonWordsFound(text)
  {
    var found := CommonWordsFound(text);
    if |found| >= 2 {
      var w1 :| w1 in found;
      assert |found - {w1}| == |found| - 1;
      var w2 :| w2 in found - {w1};
      assert w1 != w2 && w1 in found && w2 in found;
    }
    if exists w1, w2 :: w1 != w2 && w1 in found && w2 in found {
      var w1, w2 :| w1 != w2 && w1 in found && w2 in found;
      var pair := {w1, w2};
      assert found == pair + (found - pair);
      assert |found| == |pair| + |found - pair|;
    }
  }

  /** validate_response */
  function ValidateResponse(response: Response): (ok: bool)
    ensures ok <==> |Words(response.content)| >= 3 && IsItalian(response.content)
                    && GetOr(response.metadata, "finish_reason", Null) == Str("stop")
  {
    NoWordsStripsEmpty(response.content);
    if Strip(response.content) == [] then false
    else if |Words(response.content)| < 3 then false
    else if !IsItalian(response.content) then false
    else if GetOr(response.metadata, "finish_reason", Null) != Str("stop") then false
    else true
  }

  // ---- chat-context prompt ----

  const CHAT_CLOSING := ["Ricorda di:",
                         "- Mantenere il contesto della conversazione",
                         "- Rispondere in modo pertinente ai messaggi precedenti",
                         "- Adattare il tono in base all'interazione",
                         "- Essere chiaro e conciso"]

  const DEFAULT_GUIDELINE := "Mantieni un tono appropriato al contesto."
  const FACEBOOK_GUIDELINE :=
    "Mantieni un tono informale ma rispettoso. Usa frasi brevi e chiare. È "
    + "appropriato usare emoji occasionalmente. Limita i messaggi a 1-2 frasi."
  const WHATSAPP_GUIDELINE :=
    "Usa un tono amichevole e colloquiale. Le risposte devono essere concise. Puoi "
    + "usare emoji quando appropriato. Mantieni un linguaggio semplice e diretto."
  const TELEGRAM_GUIDELINE :=
    "Puoi essere più dettagliato nelle risposte. Usa un tono semi-formale. Emoji "
    + "sono accettabili ma non eccessive. Puoi strutturare messaggi più lunghi."

  /** platform_guidelines.get(platform, default) */
  function PlatformGuideline(platform: string): string {
    if platform == "facebook" then FACEBOOK_GUIDELINE
    else if platform == "whatsapp" then WHATSAPP_GUIDELINE
    else if platform == "telegram" then TELEGRAM_GUIDELINE
    else DEFAULT_GUIDELINE
  }

  /** tone_adjustments.get(tone, "") */
  function ToneAdjustment(tone: string): string {
    if tone == "informal" then "Usa un linguaggio colloquiale e amichevole."
    else if tone == "formal" then "Mantieni un tono professionale e cortese."
    else if tone == "friendly" then "Sii cordiale e aperto, ma sempre rispettoso."
    else ""
  }

  /** The lines of _build_chat_prompt: platform, platform guideline (looked up on the
      lower-cased platform), length limit, tone adjustment (case-sensitive, blank when
      unknown) and the fixed reminders. */
  function ChatPromptLines(c: ChatContext): (lines: seq<string>)
    ensures |lines| == 9
    ensures lines[1] == PlatformGuideline(Lower(c.platform))
    ensures lines[3] == ToneAdjustment(c.tone)
    ensures lines[4..] == CHAT_CLOSING
  {
    ["Stai partecipando a una conversazione su " + c.platform + ".",
     PlatformGuideline(Lower(c.platform)),
     "Limita la lunghezza delle risposte a circa " + IntToString(c.maxLength) + " caratteri.",
     ToneAdjustment(c.tone)]
    + CHAT_CLOSING
  }

  function BuildChatPrompt(c: ChatContext): string {
    Join(ChatPromptLines(c), "\n")
  }

  /** Platforms that differ only in letter case get the same guideline; a tone outside the
      three known ones adds an empty line. */
  lemma ChatPromptLookups(c: ChatContext, d: ChatContext)
    requires Lower(c.platform) == Lower(d.platform)
    ensures ChatPromptLines(c)[1] == ChatPromptLines(d)[1]
    ensures c.tone !in {"informal", "formal", "friendly"} ==> ChatPromptLines(c)[3] == ""
  {
  }

  // ---- style-specific parameters ----

  function StyleParams(temperature: real, maxTokens: int): map<string, Value> {
    map["temperature" := Float(temperature), "max_tokens" := Int(maxTokens)]
  }

  /** _get_style_specific_params: no style gives no parameters, each style its own pair. */
  function StyleSpecificParams(style: Option<SessionStyle>): (r: map<string, Value>)
    ensures style.None? ==> r == map[]
    ensures style.Some? ==> r.Keys == {"temperature", "max_tokens"}
  {
    match style
    case None => map[]
    case Some(Exploration) => StyleParams(0.7, 1000)
    case Some(CreativeWriting) => StyleParams(0.9, 2000)
    case Some(ArticleWriting) => StyleParams(0.6, 3000)
    case Some(Translation) => StyleParams(0.3, 500)
    case Some(Chat) => StyleParams(0.9, 800)
  }
}
