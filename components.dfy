// ai/anthropic_components.py: the system prompt builder, the response parser and the
// history trimming applied before every request.
module Components {
  import opened Wrappers
  import opened Text
  import opened Json
  import opened Base

  // The fixed prompt texts.
  const BASE_PROMPT :=
    "Sei un assistente specializzato nel supporto alla comunicazione per persone con "
    + "disabilità. Comunica sempre in italiano. Le tue risposte devono essere chiare, "
    + "dirette e appropriate al contesto. L'utente è Nicola e devi riferiti a lui "
    + "direttamente nelle risposte. e non in terza persona.Nicola utilizza il software "
    + "GRID3 per interagire con il computer. Ha difficoltà motorie importanti, non "
    + "cammina e usa con difficoltà le mani. Tieni conto di questo quando suggerisci "
    + "risposte e alternative. GRID3 trasforma i simboli delle librerie Widgit, "
    + "P.C.S., Symbol Styx e Snap Photos in una sequenza di parole italiane in "
    + "MAIUSCOLO. E' in grado di selezionare anche emoticons. Il risultato è una "
    + "sequenza di parole con poca struttura grammaticale che devi essere in grado di "
    + "interpretare. Nicola non è in grado di leggere il testo scritto che quindi gli "
    + "viene letto da Google Text to Speech. Nicola ha un'ottima comprensione "
    + "dell'italiano. Il nome che abbiamo dato al programma di interfaccia con l'AI è "
    + "L'Asino che Vola. Quando suggerisci approfondimenti o fai domande numera sempre "
    + "le alternative in modo che Nicola possa rispondere con uno o più numeri. Cerca "
    + "di essere conciso nelle risposte. Quando Nicola risponde con RIPROVA, devi "
    + "formulare una risposta alternativa. Quando Nicola invia il comando STAMPA, devi "
    + "rispondere fornendo solo il contenuto finale elaborato durante la sessione, "
    + "senza aggiungere spiegazioni o commenti. Se la sessione ha prodotto più "
    + "contenuti, fornisci solo l'ultimo contenuto significativo."
  const EXPLORATION_PROMPT :=
    "Aiuta l'utente a esplorare concetti e idee. Fornisci spiegazioni dettagliate ma "
    + "accessibili, usando un linguaggio chiaro e diretto. Dividi le informazioni "
    + "complesse in parti più semplici da comprendere."
  const CREATIVE_WRITING_PROMPT :=
    "Assisti l'utente nella creazione di testi creativi, inclusi testi di canzoni, "
    + "racconti e poesie. Mantieni uno stile vivace e coinvolgente, ma sempre chiaro e "
    + "comprensibile.Un prompt con la sola parola STAMPA indica che devi generare il "
    + "contenuto del documento per consentirne la copia in locale."
  const ARTICLE_WRITING_PROMPT :=
    "Aiuta l'utente a preparare articoli, interventi e post di blog. Organizza il "
    + "contenuto in modo logico e strutturato. Usa un tono professionale ma "
    + "accessibile.Un prompt con la sola parola STAMPA indica che devi generare il "
    + "contenuto del documento per consentirne la copia in locale."
  const TRANSLATION_PROMPT :=
    "Il tuo compito è tradurre i messaggi dell'utente, che usa un sistema di "
    + "comunicazione aumentativa, in italiano corretto e naturale. Mantieni il "
    + "significato originale ma esprimi il concetto in modo fluido e naturale. "
    + "L'utente non usa segni di interpunzione. IMPORTANTE: Le risposte verranno usate "
    + "su WhatsApp, quindi:\n"
    + "- 'TU' e 'TUO/TUA/TUOI/TUE' si riferiscono all'interlocutore dell'utente, non "
    + "all'AI\n"
    + "- Traduci mantenendo la seconda persona quando l'utente usa 'TU' o 'TUO'\n"
    + "- Non aggiungere mai frasi tipo 'dici al tuo interlocutore che...' o simili\n"
    + "Accorda solo il genere e il numero dei pronomi possessivi. Per le domande, "
    + "segui queste regole precise:\n"
    + "1. Traduci il messaggio come una domanda SOLO se contiene la parola 'DOMANDA' "
    + "alla fine\n"
    + "2. Se il messaggio non contiene 'DOMANDA', traducilo sempre come "
    + "un'affermazione\n"
    + "3. Non aggiungere mai un punto interrogativo se non è presente 'DOMANDA'\n"
    + "La tua risposta deve contenere solo la tua traduzione senza introduzione ne "
    + "opzioni di approfondimento."
  const CHAT_PROMPT :=
    "L'utente comunica con te utilizzando la sua modalità con sequenze di parole "
    + "maiuscole con poca grammatica. Quando l'utente vuole tornare indietro e "
    + "richiedere un ulteriore appofondimento userà la formula INDIETRO seguita dal "
    + "numero del nuovo appofondimento da esplorare"

  /** The style-specific paragraph of the system prompt. */
  function StylePrompt(s: SessionStyle): string {
    match s
    case Exploration => EXPLORATION_PROMPT
    case CreativeWriting => CREATIVE_WRITING_PROMPT
    case ArticleWriting => ARTICLE_WRITING_PROMPT
    case Translation => TRANSLATION_PROMPT
    case Chat => CHAT_PROMPT
  }

  const EXAMPLES_HEADER := "\nEsempi di traduzione:"
  const MAX_EXAMPLES := 3

  function ExampleText(e: Example): string {
    "Input: " + e.gridContent + "\nTraduzione: " + e.italianTranslation
  }

  function ExampleTexts(es: seq<Example>): (r: seq<string>)
    ensures |r| == |es|
    ensures forall i :: 0 <= i < |es| ==> r[i] == ExampleText(es[i])
  {
    if es == [] then [] else [ExampleText(es[0])] + ExampleTexts(es[1..])
  }

  function Min(a: int, b: int): int {
    if a <= b then a else b
  }

  /** The paragraphs of the system prompt, in order: the base text, the style's text when a
      style is set, then for a translation session with examples a header and at most three
      examples. */
  function PromptParts(style: Option<SessionStyle>, examples: seq<Example>): (parts: seq<string>)
    ensures |parts| == 1 + (if style.Some? then 1 else 0)
                     + (if style == Some(Translation) && examples != [] then 1 + Min(MAX_EXAMPLES, |examples|) else 0)
    ensures parts[0] == BASE_PROMPT
    ensures style.Some? ==> parts[1] == StylePrompt(style.value)
    ensures style == Some(Translation) && examples != [] ==>
              parts[2] == EXAMPLES_HEADER
              && forall i :: 0 <= i < Min(MAX_EXAMPLES, |examples|) ==> parts[3 + i] == ExampleText(examples[i])
  {
    [BASE_PROMPT]
    + (if style.Some? then [StylePrompt(style.value)] else [])
    + (if style == Some(Translation) && examples != []
       then [EXAMPLES_HEADER] + ExampleTexts(examples[..Min(MAX_EXAMPLES, |examples|)])
       else [])
  }

  /** The loop of build_system_prompt that adds at most MAX_EXAMPLES examples. */
  method AppendExamples(parts: seq<string>, examples: seq<Example>) returns (r: seq<string>)
    ensures r == parts + ExampleTexts(examples[..Min(MAX_EXAMPLES, |examples|)])
  {
    r := parts;
    var limit := Min(MAX_EXAMPLES, |examples|);
    var i := 0;
    while i < limit
      invariant 0 <= i <= limit
      invariant r == parts + ExampleTexts(examples[..i])
    {
      assert examples[..i + 1][..i] == examples[..i];
      r := r + [ExampleText(examples[i])];
      i := i + 1;
    }
  }

  /** build_system_prompt: collect the paragraphs, then join them with blank lines. */
  method BuildSystemPrompt(style: Option<SessionStyle>, examples: seq<Example>) returns (prompt: string)
    ensures prompt == Join(PromptParts(style, examples), "\n\n")
  {
    var parts := [BASE_PROMPT];
    if style.Some? {
      parts := parts + [StylePrompt(style.value)];
    }
    if style == Some(Translation) && examples != [] {
      parts := AppendExamples(parts + [EXAMPLES_HEADER], examples);
    }
    assert parts == PromptParts(style, examples);
    prompt := Join(parts, "\n\n");
  }

  lemma {:induction false} JoinStartsWithFirst(parts: seq<string>, sep: string)
    requires parts != []
    ensures StartsWith(Join(parts, sep), parts[0])
  {
  }

  /** Every system prompt opens with the base prompt. */
  lemma SystemPromptStartsWithBase(style: Option<SessionStyle>, examples: seq<Example>)
    ensures StartsWith(Join(PromptParts(style, examples), "\n\n"), BASE_PROMPT)
  {
    JoinStartsWithFirst(PromptParts(style, examples), "\n\n");
  }

  /** Without a style, or outside translation, the examples play no part in the prompt. */
  lemma PromptIgnoresExamplesOutsideTranslation(style: Option<SessionStyle>, e1: seq<Example>, e2: seq<Example>)
    requires style != Some(Translation)
    ensures PromptParts(style, e1) == PromptParts(style, e2)
  {
  }

  // ---- response parser ----

  /** One block of the API reply's content list; a block of another kind carries the name of
      its class (ToolUseBlock, ThinkingBlock, ...), which has no text attribute. */
  datatype ContentBlock = TextBlock(text: string) | OtherBlock(className: string)

  /** The fields of a Messages API reply that the application reads. */
  datatype RawResponse = RawResponse(content: seq<ContentBlock>, stopReason: Value, usage: Value, model: Value, role: Value)

  datatype ParsedResponse = ParsedResponse(content: string, metadata: map<string, Value>)

  /** json.loads when it yields an object; None if the text is not a JSON object. */
  type JsonDecoder = string -> Option<map<string, Value>>

  const METADATA_MARKER := "metadata:"

  function BaseMetadata(raw: RawResponse): map<string, Value> {
    map["finish_reason" := raw.stopReason, "usage" := raw.usage, "model" := raw.model, "role" := raw.role]
  }

  const PARSE_ERROR := "Error parsing Anthropic response: "
  /** str() of the IndexError of content[0] on an empty list. */
  const NO_BLOCK := "list index out of range"

  /** str() of the AttributeError of .text on a block that is not a text block. */
  function NoTextAttribute(className: string): string {
    "'" + className + "' object has no attribute 'text'"
  }

  /** AnthropicResponseParser.parse */
  function Parse(raw: RawResponse, decode: JsonDecoder): (r: Result<ParsedResponse>)
    ensures r.Success? <==> raw.content != [] && raw.content[0].TextBlock?
    ensures raw.content == [] ==> r == Failure(PARSE_ERROR + NO_BLOCK)
    ensures raw.content != [] && raw.content[0].OtherBlock?
            ==> r == Failure(PARSE_ERROR + NoTextAttribute(raw.content[0].className))
  {
    if raw.content == [] then Failure(PARSE_ERROR + NO_BLOCK)
    else if raw.content[0].OtherBlock? then Failure(PARSE_ERROR + NoTextAttribute(raw.content[0].className))
    else
      var text := raw.content[0].text;
      var metadata := BaseMetadata(raw);
      match Find(text, METADATA_MARKER)
      case None => Success(ParsedResponse(text, metadata))
      case Some(i) =>
        var content := Strip(text[..i]);
        var tail := Strip(text[i + |METADATA_MARKER|..]);
        match decode(tail)
        case Some(extra) => Success(ParsedResponse(content, metadata + extra))
        case None => Success(ParsedResponse(content, metadata))
  }

  /** A reply without the marker passes through untouched, with the standard metadata. */
  lemma ParsePlainText(raw: RawResponse, decode: JsonDecoder)
    requires raw.content != [] && raw.content[0].TextBlock?
    requires !Contains(raw.content[0].text, METADATA_MARKER)
    ensures Parse(raw, decode) == Success(ParsedResponse(raw.content[0].text, BaseMetadata(raw)))
  {
  }

  /** With the marker, the content is the stripped text before its first occurrence, and the
      metadata is the standard one, updated with the trailer when that decodes. */
  lemma ParseSplitsTrailer(raw: RawResponse, decode: JsonDecoder, i: nat)
    requires raw.content != [] && raw.content[0].TextBlock?
    requires Find(raw.content[0].text, METADATA_MARKER) == Some(i)
    ensures Parse(raw, decode).Success?
    ensures Parse(raw, decode).value.content == Strip(raw.content[0].text[..i])
    ensures BaseMetadata(raw).Keys <= Parse(raw, decode).value.metadata.Keys
    ensures decode(Strip(raw.content[0].text[i + |METADATA_MARKER|..])).None? ==>
              Parse(raw, decode).value.metadata == BaseMetadata(raw)
  {
  }

  lemma NoOccurrenceInPrefix(s: string, sub: string, i: nat)
    requires 0 < |sub| && i <= |s|
    requires forall k: nat :: k < i ==> !OccursAt(s, sub, k)
    ensures forall k: nat :: !OccursAt(s[..i], sub, k)
  {
    forall k: nat | k + |sub| <= i ensures !OccursAt(s[..i], sub, k) {
      assert s[..i][k..k + |sub|] == s[k..k + |sub|];
      assert !OccursAt(s, sub, k);
    }
  }

  lemma NoOccurrenceInSlice(s: string, sub: string, a: nat, b: nat)
    requires a <= b <= |s|
    requires forall k: nat :: !OccursAt(s, sub, k)
    ensures forall k: nat :: !OccursAt(s[a..b], sub, k)
  {
    forall k: nat | k + |sub| <= b - a ensures !OccursAt(s[a..b], sub, k) {
      var n := |sub|;
      var x, y := s[a..b][k..k + n], s[a + k..a + k + n];
      assert forall j :: 0 <= j < n ==> x[j] == y[j];
      assert s[a..b][k..k + n] == s[a + k..a + k + n];
      assert !OccursAt(s, sub, a + k);
    }
  }

  /** Parsing removes the trailer for good: the parsed content no longer holds the marker,
      so parsing a reply made of it returns it unchanged. */
  lemma ParseRemovesMarker(raw: RawResponse, decode: JsonDecoder)
    requires Parse(raw, decode).Success?
    ensures !Contains(Parse(raw, decode).value.content, METADATA_MARKER)
  {
    var text := raw.content[0].text;
    match Find(text, METADATA_MARKER)
    case None =>
    case Some(i) =>
      NoOccurrenceInPrefix(text, METADATA_MARKER, i);
      var prefix := text[..i];
      StripShape(prefix);
      var a, b :| StripsTo(prefix, a, b);
      NoOccurrenceInSlice(prefix, METADATA_MARKER, a, b);
  }

  // ---- context manager ----

  const MAX_MESSAGES := 10

  /** The last n items of s (all of them when there are fewer). */
  function LastN<T>(s: seq<T>, n: nat): (r: seq<T>)
    ensures |r| == Min(n, |s|)
    ensures forall i :: 0 <= i < |r| ==> r[i] == s[|s| - |r| + i]
  {
    s[|s| - Min(n, |s|)..]
  }

  /** prepare_messages: walk history[-10:] backwards, inserting each message at the front. */
  method PrepareMessages(history: seq<Message>) returns (messages: seq<Message>)
    ensures |messages| == Min(MAX_MESSAGES, |history|)
    ensures forall i :: 0 <= i < |messages| ==> messages[i] == history[|history| - |messages| + i]
  {
    var recent := history[|history| - Min(MAX_MESSAGES, |history|)..];
    messages := [];
    var i := |recent|;
    while i > 0
      invariant 0 <= i <= |recent|
      invariant messages == recent[i..]
    {
      i := i - 1;
      var msg := recent[i];
      messages := [Message(msg.role, msg.content)] + messages;
    }
  }
}
