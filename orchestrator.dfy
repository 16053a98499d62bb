// ai/orchestrator.py: sessions registered by id and the prompt round trip through a
// provider. Clock readings are integer timestamps passed in by the caller.
module Orchestrator {
  import opened Wrappers
  import opened Text
  import opened Json
  import opened Base
  import opened Components
  import opened Provider

  datatype AIProvider = Anthropic | OpenAI | Perplexity

  function ProviderValue(p: AIProvider): string {
    match p
    case Anthropic => "anthropic"
    case OpenAI => "openai"
    case Perplexity => "perplexity"
  }

  datatype TimedMessage = TimedMessage(content: string, role: string, timestamp: int)

  datatype Interaction = Interaction(messages: seq<TimedMessage>, interactionType: string)

  const APOLOGY := "Mi dispiace, non sono riuscito a generare una risposta valida."
  const MAX_INTERACTIONS := 5

  /** str(datetime.now().timestamp()), for a clock reading. */
  function SessionId(now: int): string {
    IntToString(now)
  }

  class Session {
    const id: string
    const style: SessionStyle
    const provider: AIProvider
    var interactions: seq<Interaction>
    const createdAt: int
    var lastUpdated: int

    constructor(style: SessionStyle, provider: AIProvider, now: int)
      ensures this.id == SessionId(now) && this.style == style && this.provider == provider
      ensures interactions == [] && createdAt == now && lastUpdated == now
    {
      this.id := SessionId(now);
      this.style := style;
      this.provider := provider;
      interactions := [];
      createdAt := now;
      lastUpdated := now;
    }

    /** add_interaction: append and touch the update time. */
    method AddInteraction(interaction: Interaction, now: int)
      modifies this
      ensures interactions == old(interactions) + [interaction]
      ensures lastUpdated == now
    {
      interactions := interactions + [interaction];
      lastUpdated := now;
    }
  }

  function MessagesOf(ms: seq<TimedMessage>): (r: seq<Message>)
    ensures |r| == |ms|
    ensures forall i :: 0 <= i < |ms| ==> r[i] == Message(ms[i].role, ms[i].content)
  {
    if ms == [] then [] else [Message(ms[0].role, ms[0].content)] + MessagesOf(ms[1..])
  }

  /** The messages of the given interactions, flattened into role/content pairs in order. */
  function Flatten(interactions: seq<Interaction>): seq<Message> {
    if interactions == [] then [] else MessagesOf(interactions[0].messages) + Flatten(interactions[1..])
  }

  /** _prepare_context: the session's own context is never written, so the context holds no
      style and no model configuration; translation sessions get the examples, and the
      history is the messages of the last five interactions. */
  function PrepareContext(style: SessionStyle, interactions: seq<Interaction>, examples: seq<Example>): Context {
    Context(None, None, if style == Translation then examples else [], Flatten(LastN(interactions, MAX_INTERACTIONS)))
  }

  predicate IsExchange(i: Interaction) {
    |i.messages| == 2
  }

  lemma {:induction false} FlattenLength(interactions: seq<Interaction>)
    requires forall i :: 0 <= i < |interactions| ==> IsExchange(interactions[i])
    ensures |Flatten(interactions)| == 2 * |interactions|
  {
    if interactions != [] {
      FlattenLength(interactions[1..]);
    }
  }

  /** When every interaction is a prompt/reply pair, as process_prompt records them, the
      prepared history has at most ten messages, so the provider's own trimming to ten keeps
      all of it. */
  lemma OrchestratorHistoryFits(style: SessionStyle, interactions: seq<Interaction>, examples: seq<Example>)
    requires forall i :: 0 <= i < |interactions| ==> IsExchange(interactions[i])
    ensures |PrepareContext(style, interactions, examples).history| == 2 * Min(MAX_INTERACTIONS, |interactions|)
    ensures LastN(PrepareContext(style, interactions, examples).history, MAX_MESSAGES)
            == PrepareContext(style, interactions, examples).history
  {
    var recent := LastN(interactions, MAX_INTERACTIONS);
    FlattenLength(recent);
  }

  /** The orchestrator's context carries no style, so the system prompt is the base prompt
      alone: the translation examples it adds never reach the model. */
  lemma OrchestratorPromptIsBase(style: SessionStyle, interactions: seq<Interaction>, examples: seq<Example>)
    ensures PromptParts(PrepareContext(style, interactions, examples).style,
                        PrepareContext(style, interactions, examples).translationExamples) == [BASE_PROMPT]
  {
  }

  /** What a provider answers: the Anthropic reply when it validates, an apology when it
      does not, or the fixed text of a stub provider, which accepts every reply. */
  function ProviderAnswer(provider: AIProvider, prompt: string, ctx: Context, backend: Backend): Result<string> {
    match provider
    case Anthropic =>
      var resp := Respond(prompt, ctx, backend);
      if resp.Failure? then Failure(resp.error)
      else if ValidateResponse(resp.value) then Success(resp.value.content)
      else Success(APOLOGY)
    case OpenAI => Success("Response from OpenAI")
    case Perplexity => Success("Response from Perplexity")
  }

  /** Whether process_prompt records the exchange in the session. */
  predicate Recorded(provider: AIProvider, prompt: string, ctx: Context, backend: Backend) {
    match provider
    case Anthropic => Respond(prompt, ctx, backend).Success? && ValidateResponse(Respond(prompt, ctx, backend).value)
    case _ => true
  }

  /** A recorded exchange always carries a real answer, never the apology text produced for
      a rejected Anthropic reply. */
  lemma RecordedAnswerIsReply(provider: AIProvider, prompt: string, ctx: Context, backend: Backend)
    requires Recorded(provider, prompt, ctx, backend)
    ensures ProviderAnswer(provider, prompt, ctx, backend).Success?
    ensures provider == Anthropic ==>
              ProviderAnswer(provider, prompt, ctx, backend).value == Respond(prompt, ctx, backend).value.content
  {
  }

  datatype Summary = Summary(id: string, style: string, provider: string, createdAt: int,
                             lastUpdated: int, interactionCount: nat)

  class AIOrchestrator {
    var activeSessions: map<string, Session>
    var translationExamples: seq<Example>

    /** The example store is not implemented in the source and starts empty. */
    constructor()
      ensures activeSessions == map[] && translationExamples == []
    {
      activeSessions := map[];
      translationExamples := [];
    }

    /** create_session: register a new session under its id (a later session created at the
        same instant replaces it). */
    method CreateSession(style: SessionStyle, provider: AIProvider, now: int) returns (session: Session)
      modifies this
      ensures fresh(session) && session.style == style && session.provider == provider
      ensures session.interactions == [] && session.id == SessionId(now)
      ensures activeSessions == old(activeSessions)[session.id := session]
      ensures translationExamples == old(translationExamples)
    {
      session := new Session(style, provider, now);
      activeSessions := activeSessions[session.id := session];
    }

    /** process_prompt: an unknown session is an error; otherwise the provider answers the
        prepared context, an invalid reply is replaced by an apology and not recorded, and a
        valid one is recorded as a user/assistant interaction. */
    method ProcessPrompt(sessionId: string, prompt: string, backend: Backend, now: int) returns (r: Result<string>)
      modifies if sessionId in activeSessions then {activeSessions[sessionId]} else {}
      ensures sessionId !in activeSessions ==> r == Failure("Session " + sessionId + " not found")
      ensures sessionId in activeSessions ==>
                var s := activeSessions[sessionId];
                var ctx := PrepareContext(s.style, old(s.interactions), translationExamples);
                r == ProviderAnswer(s.provider, prompt, ctx, backend)
                && (if Recorded(s.provider, prompt, ctx, backend)
                    then s.interactions == old(s.interactions) + [Interaction([TimedMessage(prompt, USER, now), TimedMessage(r.value, ASSISTANT, now)], "standard")]
                         && s.lastUpdated == now
                    else unchanged(s))
    {
      if sessionId !in activeSessions {
        return Failure("Session " + sessionId + " not found");
      }
      var session := activeSessions[sessionId];
      var ctx := PrepareContext(session.style, session.interactions, translationExamples);
      var answer: string;
      if session.provider == Anthropic {
        var response := GenerateResponse(prompt, ctx, backend);
        if response.Failure? {
          return Failure(response.error);
        }
        if !ValidateResponse(response.value) {
          return Success(APOLOGY);
        }
        answer := response.value.content;
      } else if session.provider == OpenAI {
        answer := "Response from OpenAI";
      } else {
        answer := "Response from Perplexity";
      }
      var interaction := Interaction([TimedMessage(prompt, USER, now), TimedMessage(answer, ASSISTANT, now)], "standard");
      session.AddInteraction(interaction, now);
      r := Success(answer);
    }

    /** save_translation_example: keep the example in memory with its time. */
    method SaveTranslationExample(gridContent: string, italianTranslation: string, now: int)
      modifies this
      ensures translationExamples == old(translationExamples) + [Example(gridContent, italianTranslation, Some(now))]
      ensures activeSessions == old(activeSessions)
    {
      translationExamples := translationExamples + [Example(gridContent, italianTranslation, Some(now))];
    }

    /** get_session_summary */
    method GetSessionSummary(sessionId: string) returns (r: Result<Summary>)
      ensures r.Success? <==> sessionId in activeSessions
      ensures r.Success? ==>
                var s := activeSessions[sessionId];
                r.value == Summary(s.id, StyleValue(s.style), ProviderValue(s.provider), s.createdAt,
                                   s.lastUpdated, |s.interactions|)
    {
      if sessionId !in activeSessions {
        return Failure("Session " + sessionId + " not found");
      }
      var s := activeSessions[sessionId];
      r := Success(Summary(s.id, StyleValue(s.style), ProviderValue(s.provider), s.createdAt,
                           s.lastUpdated, |s.interactions|));
    }
  }
}
