// core/main.py: the session state of NAIADApplication and its trigger handlers, as functions
// from the state before a handler to the state after it. The clipboard is a field the
// handlers read and write; speech is the list of the calls made to the speech provider,
// whose own behaviour the Playback, TtsProvider and LocalTtsProvider modules describe.
module AppState {
  import opened Wrappers
  import opened Text
  import opened Json
  import opened Base
  import Settings
  import Provider
  import Artifacts
  import Chats

  /** A call made to the speech provider. */
  datatype SpeechCall = Say(text: string) | PauseCall | ResumeCall | StopCall | RestartCall | MuteCall | UnmuteCall

  /** current_mode (also context["style"]), context["history"], context["model_config"],
      current_chat_title, the system clipboard and the speech calls made so far. */
  datatype Session = Session(
    mode: SessionStyle,
    history: seq<Message>,
    modelConfig: Value,
    title: Option<string>,
    clipboard: string,
    speech: seq<SpeechCall>)

  /** The three translation examples of context["translation_examples"]. */
  const EXAMPLES: seq<Example> := [
    Example("IO OGGI FELICE PROVARE NUOVO PROGRAMMA CERVELLO AIUTARE SCRIVERE ITALIANO BELLO",
            "Oggi sono felice perchè ho iniziato ad usare un nuovo programma di AI, che mi aiuta a scrivere in un italiano corretto",
            None),
    Example("QUANDO TU LIBERTA' GIORNO DOMANDA", "Quando sei disponibile ?", None),
    Example("SABATO TU VENIRE ORE DOMANDA", "A che ora puoi venire sabato ?", None)]

  const PRINT_PROMPT := "STAMPA"
  const RETRY_PROMPT := "RIPROVA"
  const WHATSAPP_PROMPT :=
    "Prepara un messaggio WhatsApp basato sulla nostra conversazione. Il messaggio "
    + "deve essere conciso, chiaro e adatto al contesto di una chat. Puoi includere "
    + "emoji ma non formattazioni speciali. Non suggerire estensioni o modifiche"

  const NOTHING_TO_PRINT := "Nessun contenuto disponibile nella sessione corrente."
  const PRINT_SAVED := "Ho salvato l'artefatto come "
  const PRINT_NOT_SAVED := "Non sono riuscito a salvare l'artefatto, ma te lo mostro comunque"
  const PRINT_ERROR := "Si è verificato un errore durante la stampa del contenuto."
  const ASK_READ_ARTIFACT := "Per favore, specifica il numero dell'artefatto da leggere."
  const ASK_DELETE_ARTIFACT := "Per favore, specifica il numero dell'artefatto da cancellare"
  const NOT_DELETED_ARTIFACT := "Non sono riuscito a cancellare l'artefatto"
  const NOTHING_TO_SAVE := "Non c'è contenuto da salvare nella sessione corrente"
  const SAVE_CHAT_ERROR := "Si è verificato un errore durante il salvataggio della chat"
  const ASK_READ_CHAT := "Per favore, specifica il numero della chat da leggere"
  const NO_ASSISTANT := "La chat non contiene risposte dell'assistente"
  const READ_CHAT_ERROR := "Si è verificato un errore durante la lettura della chat"
  const ASK_DELETE_CHAT := "Per favore, specifica il numero della chat da eliminare"
  const NOT_DELETED_CHAT := "Non sono riuscito a eliminare la chat"
  const NOTHING_TO_SEND :=
    "Non c'è contenuto disponibile nella sessione corrente per preparare un "
    + "messaggio."
  const WHATSAPP_INTRO := "Ecco il messaggio pronto per WhatsApp: "
  const WHATSAPP_ERROR :=
    "Si è verificato un errore durante la preparazione del messaggio WhatsApp."

  /** The context dictionary generate_response receives. */
  function ContextOf(s: Session): Provider.Context {
    Provider.Context(Some(s.mode), Some(s.modelConfig), EXAMPLES, s.history)
  }

  // ---- Model configuration and modes ----

  /** The configuration installed when the models table has no usable entry for a style. */
  function FallbackConfig(settings: Value): Value {
    Obj(map["model" := Settings.AnthropicDefaultModel(settings),
            "parameters" := Obj(map["temperature" := Float(0.7), "max_tokens" := Int(1000)])])
  }

  /** model_configs.get(style.value, {}), replaced by the fallback when it is empty. */
  function ModeConfig(settings: Value, style: SessionStyle): (r: Value)
    requires Settings.ModelsTable(settings).Obj?
    ensures Truthy(r)
  {
    var entry := GetOr(Settings.ModelsTable(settings).fields, StyleValue(style), Obj(map[]));
    assert "model" in FallbackConfig(settings).fields;
    if Truthy(entry) then entry else FallbackConfig(settings)
  }

  /** A style without a usable entry gets the default model with temperature 0.7 and 1000
      tokens, a configuration the provider then uses as it is; any other style gets its own
      entry of the models table. */
  lemma ModeConfigFallback(settings: Value, style: SessionStyle)
    requires Settings.ModelsTable(settings).Obj?
    ensures var t := Settings.ModelsTable(settings).fields;
            var k := StyleValue(style);
            (k in t && Truthy(t[k]) ==> ModeConfig(settings, style) == t[k])
            && (!(k in t && Truthy(t[k])) ==>
                  ModeConfig(settings, style) == FallbackConfig(settings)
                  && Provider.GetModelConfig(Some(ModeConfig(settings, style))) == Success(FallbackConfig(settings))
                  && ModeConfig(settings, style).fields["parameters"]
                     == Obj(map["temperature" := Float(0.7), "max_tokens" := Int(1000)]))
  {
  }

  /** With the built-in configuration every style gets its own entry of the models table. */
  lemma DefaultModeConfigs(style: SessionStyle)
    ensures Settings.ModelsTable(Obj(Settings.DefaultConfig())).Obj?
    ensures ModeConfig(Obj(Settings.DefaultConfig()), style) == Settings.DefaultModels()[StyleValue(style)]
    ensures Settings.IsModelConfig(ModeConfig(Obj(Settings.DefaultConfig()), style))
  {
    Settings.DefaultConfigFacts();
    var k := StyleValue(style);
    assert k in Settings.DefaultModels();
    assert Settings.IsModelConfig(Settings.DefaultModels()[k]);
  }

  /** __init__ followed by setup: translation mode, no history, no title. */
  function Initial(settings: Value, clipboard: string): Session
    requires Settings.ModelsTable(settings).Obj?
  {
    Session(Translation, [], ModeConfig(settings, Translation), None, clipboard, [])
  }

  /** handle_mode */
  function HandleMode(s: Session, settings: Value, style: SessionStyle): Session
    requires Settings.ModelsTable(settings).Obj?
  {
    if s.mode == style then s
    else s.(mode := style, history := [], title := None, modelConfig := ModeConfig(settings, style))
  }

  /** Switching to another style starts a new conversation in that style: it sets the
      style, empties the history, forgets the title and installs the style's configuration,
      and touches nothing else. */
  lemma HandleModeSwitch(s: Session, settings: Value, style: SessionStyle)
    requires Settings.ModelsTable(settings).Obj? && s.mode != style
    ensures var r := HandleMode(s, settings, style);
            r.mode == style && r.history == [] && r.title == None
            && r.modelConfig == ModeConfig(settings, style) && Truthy(r.modelConfig)
            && r.clipboard == s.clipboard && r.speech == s.speech
  {
  }

  /** handle_mode with the current style changes nothing, so a second call is a no-op. */
  lemma HandleModeSameStyle(s: Session, settings: Value, style: SessionStyle)
    requires Settings.ModelsTable(settings).Obj?
    ensures s.mode == style ==> HandleMode(s, settings, style) == s
    ensures HandleMode(HandleMode(s, settings, style), settings, style) == HandleMode(s, settings, style)
    ensures HandleMode(s, settings, style).mode == style
  {
  }

  /** The clean_history trigger. */
  function CleanHistory(s: Session): Session {
    s.(history := [])
  }

  // ---- Clipboard and speech ----

  /** get_clipboard_content */
  function ReadClipboard(s: Session): string {
    Strip(s.clipboard)
  }

  /** set_clipboard_content: empty text leaves the clipboard as it is. */
  function SetClipboard(s: Session, content: string): Session {
    if content == "" then s else s.(clipboard := content)
  }

  function Speak(s: Session, text: string): Session {
    s.(speech := s.speech + [Say(text)])
  }

  /** A control call to the speech provider (pause, resume, stop, restart, mute, unmute). */
  function Control(s: Session, c: SpeechCall): Session {
    s.(speech := s.speech + [c])
  }

  // ---- process_clipboard, retryTranslation ----

  function Exchange(prompt: string, reply: string): seq<Message> {
    [Message(USER, prompt), Message(ASSISTANT, reply)]
  }

  /** The safety checks of process_clipboard: an empty prompt, the last reply pasted back,
      or the previous prompt repeated (unless it is a number). */
  predicate Ignored(history: seq<Message>, prompt: string) {
    prompt == ""
    || (|history| >= 1 && history[|history| - 1].role == ASSISTANT && prompt == history[|history| - 1].content)
    || (|history| >= 2 && history[|history| - 2].role == USER && prompt == history[|history| - 2].content
        && !IsDigits(prompt))
  }

  /** What follows a provider call: a reply is recorded after the history, spoken and put on
      the clipboard; a failure puts "Errore: " and its message on the clipboard. */
  function Answered(s: Session, prompt: string, reply: Result<Response>): (r: Session)
    ensures r.mode == s.mode && r.title == s.title && r.modelConfig == s.modelConfig
    ensures reply.Success? ==> r.history == s.history + [Message(USER, prompt), Message(ASSISTANT, reply.value.content)]
    ensures reply.Failure? ==> r.history == s.history && r.speech == s.speech && r.clipboard == "Errore: " + reply.error
  {
    match reply
    case Failure(e) => SetClipboard(s, "Errore: " + e)
    case Success(r) => SetClipboard(Speak(s.(history := s.history + Exchange(prompt, r.content)), r.content), r.content)
  }

  /** process_clipboard */
  function ProcessClipboard(s: Session, backend: Provider.Backend): (r: Session)
    ensures r.mode == s.mode && r.title == s.title && r.modelConfig == s.modelConfig
    ensures Ignored(s.history, ReadClipboard(s)) ==> r == s
    ensures r.history == s.history
            || (|r.history| == |s.history| + 2 && r.history[..|s.history|] == s.history
                && r.history[|s.history|] == Message(USER, ReadClipboard(s))
                && r.history[|s.history| + 1].role == ASSISTANT)
  {
    var prompt := ReadClipboard(s);
    if Ignored(s.history, prompt) then s
    else Answered(s, prompt, Provider.Respond(prompt, ContextOf(s), backend))
  }

  /** retryTranslation */
  function RetryTranslation(s: Session, backend: Provider.Backend): (r: Session)
    ensures r.mode == s.mode && r.title == s.title && r.modelConfig == s.modelConfig
    ensures r.history == s.history
            || (|r.history| == |s.history| + 2 && r.history[..|s.history|] == s.history
                && r.history[|s.history|] == Message(USER, RETRY_PROMPT)
                && r.history[|s.history| + 1].role == ASSISTANT)
    ensures Provider.Respond(RETRY_PROMPT, ContextOf(s), backend).Failure? ==>
              r.history == s.history && r.speech == s.speech
              && r.clipboard == "Errore: " + Provider.Respond(RETRY_PROMPT, ContextOf(s), backend).error
  {
    Answered(s, RETRY_PROMPT, Provider.Respond(RETRY_PROMPT, ContextOf(s), backend))
  }

  /** A prompt the safety checks reject leaves the whole state as it was, whatever the
      provider would have answered. */
  lemma ProcessClipboardIgnores(s: Session, backend: Provider.Backend)
    requires ReadClipboard(s) == ""
             || (s.history != [] && s.history[|s.history| - 1] == Message(ASSISTANT, ReadClipboard(s)))
             || (|s.history| >= 2 && s.history[|s.history| - 2] == Message(USER, ReadClipboard(s))
                 && !IsDigits(ReadClipboard(s)))
    ensures ProcessClipboard(s, backend) == s
  {
  }

  /** A number may be sent twice in a row: only the repetition of a non-numeric prompt is
      rejected. */
  lemma DigitRepeatIsSent(s: Session, backend: Provider.Backend)
    requires IsDigits(ReadClipboard(s)) && |s.history| >= 2
    requires s.history[|s.history| - 2] == Message(USER, ReadClipboard(s))
    requires s.history[|s.history| - 1].role != ASSISTANT
    ensures ProcessClipboard(s, backend) == Answered(s, ReadClipboard(s), Provider.Respond(ReadClipboard(s), ContextOf(s), backend))
  {
  }

  /** An accepted prompt goes to the provider as the last message of the request, after at
      most ten messages of the history; its reply is what the history gains, together with
      the prompt, and it is spoken and copied. A failing call leaves the history as it was. */
  lemma ProcessClipboardAppends(s: Session, backend: Provider.Backend)
    requires !Ignored(s.history, ReadClipboard(s))
    ensures var prompt := ReadClipboard(s);
            var reply := Provider.Respond(prompt, ContextOf(s), backend);
            var r := ProcessClipboard(s, backend);
            r.mode == s.mode && r.title == s.title && r.modelConfig == s.modelConfig
            && (reply.Success? ==>
                  r.history == s.history + [Message(USER, prompt), Message(ASSISTANT, reply.value.content)]
                  && r.speech == s.speech + [Say(reply.value.content)]
                  && Provider.BuildRequest(prompt, ContextOf(s)).Success?
                  && var msgs := Provider.BuildRequest(prompt, ContextOf(s)).value.messages;
                     |msgs| <= 11 && msgs[|msgs| - 1] == Message(USER, prompt))
            && (reply.Failure? ==> r.history == s.history && r.speech == s.speech
                                   && r.clipboard == "Errore: " + reply.error)
  {
    var prompt := ReadClipboard(s);
    if Provider.Respond(prompt, ContextOf(s), backend).Success? {
      Provider.RespondAnswersRequest(prompt, ContextOf(s), backend);
    }
  }

  /** retryTranslation sends "RIPROVA" and records it with the reply in the same way. */
  lemma RetryAppends(s: Session, backend: Provider.Backend)
    ensures var reply := Provider.Respond(RETRY_PROMPT, ContextOf(s), backend);
            var r := RetryTranslation(s, backend);
            r.mode == s.mode && r.title == s.title && r.modelConfig == s.modelConfig
            && (reply.Success? ==>
                  r.history == s.history + [Message(USER, "RIPROVA"), Message(ASSISTANT, reply.value.content)])
            && (reply.Failure? ==> r.history == s.history && r.clipboard == "Errore: " + reply.error)
  {
  }

  /** Whatever the provider answers, the history keeps its old messages in front and gains
      at most the two of the exchange. */
  lemma AnsweredExtends(s: Session, prompt: string, reply: Result<Response>)
    ensures var r := Answered(s, prompt, reply);
            s.history <= r.history && |r.history| <= |s.history| + 2
            && r.mode == s.mode && r.title == s.title && r.modelConfig == s.modelConfig
  {
  }

  /** The history only ever grows at its end under the two conversation handlers. */
  lemma ConversationOnlyAppends(s: Session, backend: Provider.Backend)
    ensures s.history <= ProcessClipboard(s, backend).history
    ensures s.history <= RetryTranslation(s, backend).history
    ensures |ProcessClipboard(s, backend).history| <= |s.history| + 2
    ensures |RetryTranslation(s, backend).history| <= |s.history| + 2
  {
    var prompt := ReadClipboard(s);
    AnsweredExtends(s, prompt, Provider.Respond(prompt, ContextOf(s), backend));
    AnsweredExtends(s, RETRY_PROMPT, Provider.Respond(RETRY_PROMPT, ContextOf(s), backend));
  }

  // ---- Title choice ----

  /** The title print_session_content and save_current_chat pass on: the clipboard text if
      it has two to five words, else the current title if it is not empty, else none. */
  function ChooseTitle(clip: string, current: Option<string>): (r: Option<string>)
    ensures r.Some? ==> r.value != ""
  {
    if 2 <= |Words(clip)| <= 5 then Some(clip)
    else if current.Some? && current.value != "" then current
    else None
  }

  /** The three ways of choosing, in the order they are tried. */
  lemma ChooseTitleCases(clip: string, current: Option<string>)
    ensures 2 <= |Words(clip)| <= 5 ==> ChooseTitle(clip, current) == Some(clip)
    ensures !(2 <= |Words(clip)| <= 5) && current.Some? && current.value != "" ==> ChooseTitle(clip, current) == current
    ensures ChooseTitle(clip, current).None? <==>
              !(2 <= |Words(clip)| <= 5) && (current.None? || current.value == "")
  {
  }

  // ---- print_session_content, prepare_whatsapp_message ----

  /** The filename print_session_content offers save_artifact. */
  function PrintTitle(s: Session): Option<string> {
    ChooseTitle(ReadClipboard(s), s.title)
  }

  /** print_session_content, given the provider's answer to "STAMPA" and the name
      save_artifact chose, or None when it raised. */
  function Printed(s: Session, reply: Result<Response>, saved: Option<string>): (r: Session)
    ensures SameConversation(r, s) && |r.speech| == |s.speech| + 1 && s.speech <= r.speech
  {
    if s.history == [] then Speak(s, NOTHING_TO_PRINT)
    else
      match reply
      case Failure(_) => Speak(SetClipboard(s, PRINT_ERROR), PRINT_ERROR)
      case Success(r) =>
        var msg := if saved.Some? then PRINT_SAVED + saved.value else PRINT_NOT_SAVED;
        Speak(SetClipboard(s, r.content), msg + "... " + r.content)
  }

  /** prepare_whatsapp_message, given the provider's answer to WHATSAPP_PROMPT. */
  function PrepareWhatsApp(s: Session, reply: Result<Response>): (r: Session)
    ensures SameConversation(r, s) && |r.speech| == |s.speech| + 1 && s.speech <= r.speech
    ensures s.history == [] ==> r == Speak(s, NOTHING_TO_SEND)
    ensures s.history != [] && reply.Failure? ==> r.clipboard == WHATSAPP_ERROR && r.speech[|s.speech|] == Say(WHATSAPP_ERROR)
    ensures s.history != [] && reply.Success? ==>
              r.speech[|s.speech|] == Say(WHATSAPP_INTRO + reply.value.content)
              && r.clipboard == (if reply.value.content == "" then s.clipboard else reply.value.content)
  {
    if s.history == [] then Speak(s, NOTHING_TO_SEND)
    else
      match reply
      case Failure(_) => SetClipboard(Speak(s, WHATSAPP_ERROR), WHATSAPP_ERROR)
      case Success(r) => SetClipboard(Speak(s, WHATSAPP_INTRO + r.content), r.content)
  }

  /** The conversation itself: style, history, title and configuration. */
  predicate SameConversation(a: Session, b: Session) {
    a.mode == b.mode && a.history == b.history && a.title == b.title && a.modelConfig == b.modelConfig
  }

  /** STAMPA and the WhatsApp message ask the provider with the whole conversation but keep
      the history as it was, and each makes exactly one speech call; with an empty history
      they only say that there is nothing to work with. */
  lemma SnapshotHandlersKeepHistory(s: Session, reply: Result<Response>, saved: Option<string>)
    ensures s.history == [] ==> Printed(s, reply, saved) == Speak(s, NOTHING_TO_PRINT)
    ensures s.history == [] ==> PrepareWhatsApp(s, reply) == Speak(s, NOTHING_TO_SEND)
  {
  }

  /** A printed answer ends up on the clipboard and is read out after the save message. */
  lemma PrintShowsContent(s: Session, reply: Result<Response>, saved: Option<string>)
    requires s.history != [] && reply.Success?
    ensures var c := reply.value.content;
            var r := Printed(s, reply, saved);
            (c != "" ==> r.clipboard == c)
            && r.speech[|r.speech| - 1]
               == Say((if saved.Some? then "Ho salvato l'artefatto come " + saved.value
                       else "Non sono riuscito a salvare l'artefatto, ma te lo mostro comunque") + "... " + c)
  {
  }

  // ---- Artifacts by number ----

  /** list_artifact */
  function ListArtifact(s: Session, files: seq<Artifacts.ArtifactFile>, fmt: int -> string): (r: Session)
    ensures SameConversation(r, s) && r.clipboard == s.clipboard
  {
    Speak(s, Artifacts.ListText(files, fmt))
  }

  /** read_artifact */
  function ReadArtifact(s: Session, files: seq<Artifacts.ArtifactFile>): (r: Session)
    ensures SameConversation(r, s)
    ensures s.speech < r.speech && |r.speech| <= |s.speech| + 2
  {
    match ParseInt(ReadClipboard(s))
    case None => Speak(s, ASK_READ_ARTIFACT)
    case Some(n) => ReadArtifactNumber(s, files, n)
  }

  /** read_artifact once the number is known: the artifact's text goes to the clipboard and
      is read out, then read again after its name; a number out of range is answered with
      the count. */
  function ReadArtifactNumber(s: Session, files: seq<Artifacts.ArtifactFile>, n: int): (r: Session)
    ensures SameConversation(r, s)
    ensures s.speech < r.speech && |r.speech| <= |s.speech| + 2
    ensures !(1 <= n <= |Artifacts.TxtFiles(files)|) ==>
              r == Speak(s, Artifacts.CountError(|Artifacts.TxtFiles(files)|))
    ensures 1 <= n <= |Artifacts.TxtFiles(files)| ==>
              exists f :: f in files && EndsWith(f.name, Artifacts.TXT)
                          && r.speech == s.speech + [Say(f.content), Say(f.name + "... " + f.content)]
                          && (f.content != "" ==> r.clipboard == f.content)
  {
    var r := Artifacts.ArtifactByNumber(files, n);
    if r.Failure? then Speak(s, r.error)
    else
      var (name, content) := r.value;
      Speak(Speak(SetClipboard(s, content), content), name + "... " + content)
  }

  /** delete_artifact: the new session and the directory afterwards. */
  function DeleteArtifact(s: Session, files: seq<Artifacts.ArtifactFile>, unlinkFails: bool)
    : (r: (Session, seq<Artifacts.ArtifactFile>))
    ensures SameConversation(r.0, s) && r.0.clipboard == s.clipboard
    ensures |r.0.speech| == |s.speech| + 1
  {
    match ParseInt(ReadClipboard(s))
    case None => (Speak(s, ASK_DELETE_ARTIFACT), files)
    case Some(n) => DeleteArtifactNumber(s, files, n, unlinkFails)
  }

  /** delete_artifact once the number is known. */
  function DeleteArtifactNumber(s: Session, files: seq<Artifacts.ArtifactFile>, n: int, unlinkFails: bool)
    : (r: (Session, seq<Artifacts.ArtifactFile>))
    ensures SameConversation(r.0, s) && r.0.clipboard == s.clipboard
    ensures |r.0.speech| == |s.speech| + 1
    ensures unlinkFails ==> r.1 == files
  {
    var r := Artifacts.ArtifactByNumber(files, n);
    if r.Failure? then (Speak(s, r.error), files)
    else
      var name := r.value.0;
      if name in Artifacts.NamesOf(files) && !unlinkFails
      then (Speak(s, "Artefatto " + name + " cancellato con successo"), Artifacts.Without(files, name))
      else (Speak(s, NOT_DELETED_ARTIFACT), files)
  }

  /** Deleting artifact n removes exactly the n-th listed file, and the number out of range
      is reported with the count and removes nothing. */
  lemma DeleteArtifactRemovesListed(s: Session, files: seq<Artifacts.ArtifactFile>, n: int)
    requires Artifacts.DistinctNames(files)
    ensures var listing := Artifacts.ArtifactsListing(files);
            var r := DeleteArtifactNumber(s, files, n, false);
            (1 <= n <= |listing| ==>
               r.1 == Artifacts.Without(files, listing[n - 1].name)
               && Artifacts.NamesOf(r.1) == Artifacts.NamesOf(files) - {listing[n - 1].name}
               && r.0 == Speak(s, "Artefatto " + listing[n - 1].name + " cancellato con successo"))
            && (!(1 <= n <= |listing|) ==> r == (Speak(s, Artifacts.CountError(|listing|)), files))
  {
    var listing := Artifacts.ArtifactsListing(files);
    Artifacts.ListingSpec(files);
    if 1 <= n <= |listing| {
      var f := listing[n - 1];
      assert f in listing;
      assert f.name in Artifacts.NamesOf(files);
      Artifacts.WithoutNames(files, f.name);
    }
  }

  // ---- Saved chats ----

  /** save_current_chat: the new session and the chat directory afterwards. */
  function SaveCurrentChat(s: Session, entries: seq<Chats.ChatEntry>, now: int, writeError: Option<string>)
    : (r: (Session, seq<Chats.ChatEntry>))
    ensures SameConversation(r.0, s) && r.0.clipboard == s.clipboard
    ensures s.history == [] || writeError.Some? ==> r.1 == entries
  {
    if s.history == [] then (Speak(s, NOTHING_TO_SAVE), entries)
    else
      var title := ChooseTitle(ReadClipboard(s), s.title);
      if writeError.Some? then (Speak(s, SAVE_CHAT_ERROR), entries)
      else
        var name := Chats.ChatFileName(s.history, title);
        var record := Chats.ChatRecord(s.mode, Chats.ChosenTitle(s.history, title), s.history, now);
        (Speak(s, "Ho salvato la sessione di " + Chats.StyleName(s.mode) + " come " + PathStem(name)),
         Chats.Stored(entries, name, Chats.Parsed(Obj(record))))
  }

  /** A saved session is listed afterwards, with the current style and the time of saving,
      and its stored history decodes to the session's history; an empty session saves
      nothing. */
  lemma SavedSessionIsListed(s: Session, entries: seq<Chats.ChatEntry>, now: int)
    requires Chats.DistinctNames(entries) && s.history != []
    ensures var r := SaveCurrentChat(s, entries, now, None);
            Chats.DistinctNames(r.1)
            && exists c :: c in Chats.ChatsListing(r.1) && c.style == s.mode && c.savedAt == now
                           && "history" in c.fields && Chats.HistoryFromValue(c.fields["history"]) == Some(s.history)
  {
    var title := ChooseTitle(ReadClipboard(s), s.title);
    Chats.SaveThenList(entries, s.mode, s.history, title, now);
  }

  /** list_saved_chats: every style, unfiltered. */
  function ListSavedChats(s: Session, entries: seq<Chats.ChatEntry>, fmt: int -> string): (r: Session)
    ensures SameConversation(r, s) && r.clipboard == s.clipboard
  {
    Speak(s, Chats.ListText(entries, None, fmt))
  }

  /** The content of the last assistant message, scanning back from the end. */
  function LastAssistant(h: seq<Message>): (r: Option<string>)
    ensures r.None? <==> forall i :: 0 <= i < |h| ==> h[i].role != ASSISTANT
    ensures r.Some? ==> exists i :: 0 <= i < |h| && h[i].role == ASSISTANT && h[i].content == r.value
                                    && forall j :: i < j < |h| ==> h[j].role != ASSISTANT
  {
    if h == [] then None
    else if h[|h| - 1].role == ASSISTANT then Some(h[|h| - 1].content)
    else
      var r := LastAssistant(h[..|h| - 1]);
      LastAssistantSkips(h, r);
      r
  }

  /** r is the content of the last assistant message of h, or None when there is none. */
  ghost predicate IsLastAssistant(h: seq<Message>, r: Option<string>) {
    && (r.None? <==> forall i :: 0 <= i < |h| ==> h[i].role != ASSISTANT)
    && (r.Some? ==> exists i :: 0 <= i < |h| && h[i].role == ASSISTANT && h[i].content == r.value
                                && forall j :: i < j < |h| ==> h[j].role != ASSISTANT)
  }

  /** A trailing message that is not the assistant's does not change the last reply. */
  lemma LastAssistantSkips(h: seq<Message>, r: Option<string>)
    requires h != [] && h[|h| - 1].role != ASSISTANT
    requires IsLastAssistant(h[..|h| - 1], r)
    ensures IsLastAssistant(h, r)
  {
    var init := h[..|h| - 1];
    assert forall i :: 0 <= i < |init| ==> init[i] == h[i];
    if r.Some? {
      var i :| 0 <= i < |init| && init[i].role == ASSISTANT && init[i].content == r.value
               && forall j :: i < j < |init| ==> init[j].role != ASSISTANT;
      assert h[i].role == ASSISTANT && h[i].content == r.value;
    }
  }

  // ---- The backward scan over a stored history ----

  /** A stored item the scan passes over: a dictionary whose role is not the assistant's. */
  predicate IsOtherItem(v: Value) {
    v.Obj? && "role" in v.fields && v.fields["role"] != Str(ASSISTANT)
  }

  /** A stored item the scan stops at: an assistant dictionary with a content. */
  predicate IsReplyItem(v: Value) {
    v.Obj? && "role" in v.fields && v.fields["role"] == Str(ASSISTANT) && "content" in v.fields
  }

  /** for msg in reversed(items): if msg["role"] == "assistant": take msg["content"]. The result
      is the content of the last assistant item, None when the scan finds none, or str() of the
      exception raised by the first item, counted from the end, that it cannot index. Items
      before the one it stops at are never looked at. */
  function LastReplyOfItems(items: seq<Value>): (r: Result<Option<Value>>)
    ensures r == Success(None) <==> forall k :: 0 <= k < |items| ==> IsOtherItem(items[k])
    ensures r.Success? && r.value.Some? ==>
              exists i :: 0 <= i < |items| && IsReplyItem(items[i]) && items[i].fields["content"] == r.value.value
                          && forall k :: i < k < |items| ==> IsOtherItem(items[k])
    ensures r.Failure? ==>
              exists i :: 0 <= i < |items| && !IsOtherItem(items[i]) && !IsReplyItem(items[i])
                          && forall k :: i < k < |items| ==> IsOtherItem(items[k])
    decreases |items|
  {
    if items == [] then Success(None)
    else
      var n := |items| - 1;
      var m := items[n];
      if !m.Obj? then Failure(KeyIndexError(m))
      else if "role" !in m.fields then Failure("'role'")
      else if m.fields["role"] == Str(ASSISTANT) then
        if "content" in m.fields then Success(Some(m.fields["content"])) else Failure("'content'")
      else
        var r := LastReplyOfItems(items[..n]);
        assert forall k :: 0 <= k < n ==> items[..n][k] == items[k];
        r
  }

  /** The same scan over a stored history of any shape: reversed() of a dictionary yields its
      keys and reversed() of a string its characters, strings that cannot be indexed by
      "role"; any other scalar is not reversible. */
  function LastReplyOf(history: Value): (r: Result<Option<Value>>)
    ensures !history.Arr? ==> r.Failure? || r == Success(None)
    ensures history.Arr? ==> r == LastReplyOfItems(history.items)
  {
    match history
    case Arr(items) => LastReplyOfItems(items)
    case Obj(m) => if m == map[] then Success(None) else Failure(KeyIndexError(Str("")))
    case Str(t) => if t == "" then Success(None) else Failure(KeyIndexError(history))
    case _ => Failure("'" + TypeName(history) + "' object is not reversible")
  }

  /** The scan stops at the last assistant item: whatever precedes it, malformed or not,
      plays no part. */
  lemma {:induction false} ScanStopsAtLastReply(before: seq<Value>, reply: Value, after: seq<Value>)
    requires IsReplyItem(reply)
    requires forall k :: 0 <= k < |after| ==> IsOtherItem(after[k])
    ensures LastReplyOfItems(before + [reply] + after) == Success(Some(reply.fields["content"]))
    decreases |after|
  {
    var items := before + [reply] + after;
    if after != [] {
      var n := |items| - 1;
      var shorter := after[..|after| - 1];
      assert items[..n] == before + [reply] + shorter;
      assert items[n] == after[|after| - 1];
      ScanStopsAtLastReply(before, reply, shorter);
    }
  }

  /** A stored history that reads back as messages is scanned without error, and the scan
      finds the last assistant message's content. */
  lemma {:induction false} ScanOfMessages(items: seq<Value>, h: seq<Message>)
    requires |items| == |h|
    requires forall k :: 0 <= k < |items| ==> Chats.ItemToMessage(items[k]) == Some(h[k])
    ensures LastReplyOfItems(items) == Success(AsReply(LastAssistant(h)))
    decreases |items|
  {
    if items != [] {
      var n := |items| - 1;
      assert Chats.ItemToMessage(items[n]) == Some(h[n]);
      ScanOfMessages(items[..n], h[..n]);
      assert h[..n] == h[..|h| - 1];
    }
  }

  /** The last answer as a stored value. */
  function AsReply(last: Option<string>): Option<Value> {
    if last.Some? then Some(Str(last.value)) else None
  }

  lemma {:induction false} DecodedItems(items: seq<Value>, h: seq<Message>)
    requires Chats.ItemsToMessages(items) == Some(h)
    ensures |items| == |h| && forall k :: 0 <= k < |items| ==> Chats.ItemToMessage(items[k]) == Some(h[k])
    decreases |items|
  {
    if items != [] {
      DecodedItems(items[1..], h[1..]);
      forall k | 0 < k < |items| ensures Chats.ItemToMessage(items[k]) == Some(h[k]) {
        assert items[1..][k - 1] == items[k];
      }
    }
  }

  /** On a history that reads back as messages, the backward scan agrees with LastAssistant. */
  lemma LastReplyOfDecoded(history: Value, h: seq<Message>)
    requires Chats.HistoryFromValue(history) == Some(h)
    ensures LastReplyOf(history) == Success(AsReply(LastAssistant(h)))
  {
    DecodedItems(history.items, h);
    ScanOfMessages(history.items, h);
  }

  /** for msg in reversed(history): the loop of read_saved_chat, read_chat and resume_chat. */
  method FindLastReply(history: Value) returns (r: Result<Option<Value>>)
    ensures r == LastReplyOf(history)
  {
    if !history.Arr? {
      return LastReplyOf(history);
    }
    var items := history.items;
    var i := |items|;
    assert items[..i] == items;
    while i > 0
      invariant 0 <= i <= |items|
      invariant LastReplyOf(history) == LastReplyOfItems(items[..i])
    {
      var m := items[i - 1];
      assert items[..i][..i - 1] == items[..i - 1];
      if !m.Obj? {
        return Failure(KeyIndexError(m));
      }
      if "role" !in m.fields {
        return Failure("'role'");
      }
      if m.fields["role"] == Str(ASSISTANT) {
        if "content" !in m.fields {
          return Failure("'content'");
        }
        return Success(Some(m.fields["content"]));
      }
      i := i - 1;
    }
    r := Success(None);
  }

  /** An exchange just recorded ends with its reply, which is then the last answer. */
  lemma LastAssistantOfExchange(h: seq<Message>, prompt: string, reply: string)
    ensures LastAssistant(h + Exchange(prompt, reply)) == Some(reply)
  {
  }

  /** read_saved_chat */
  function ReadSavedChat(s: Session, entries: seq<Chats.ChatEntry>): (r: Session)
    ensures SameConversation(r, s) && r.clipboard == s.clipboard && |r.speech| == |s.speech| + 1
  {
    match ParseInt(ReadClipboard(s))
    case None => Speak(s, ASK_READ_CHAT)
    case Some(n) => ReadSavedChatNumber(s, entries, n)
  }

  /** read_saved_chat once the number is known: the chat's name, style and last reply. A
      record without a history, or a history the backward scan cannot read, fails like any
      other unexpected error. */
  function ReadSavedChatNumber(s: Session, entries: seq<Chats.ChatEntry>, n: int): (r: Session)
    ensures SameConversation(r, s) && r.clipboard == s.clipboard && |r.speech| == |s.speech| + 1
  {
    var r := Chats.ChatByNumber(entries, n, false);
    if r.Failure? then Speak(s, if r.error == Chats.MISSING_HISTORY then READ_CHAT_ERROR else r.error)
    else
      match LastReplyOf(r.value.history)
      case Failure(_) => Speak(s, READ_CHAT_ERROR)
      case Success(last) =>
        if last.Some? && Truthy(last.value) then
          Speak(s, "Chat " + BeforeLastDot(r.value.name) + " di tipo " + Chats.StyleName(r.value.style)
                   + ". Ultima risposta: " + Show(last.value))
        else Speak(s, NO_ASSISTANT)
  }

  /** A chat whose history reads back as messages is reported with its last reply. */
  lemma ReadSavedReportsLastReply(s: Session, entries: seq<Chats.ChatEntry>, n: int, h: seq<Message>)
    requires Chats.ChatByNumber(entries, n, false).Success?
    requires Chats.HistoryFromValue(Chats.ChatByNumber(entries, n, false).value.history) == Some(h)
    requires LastAssistant(h).Some? && LastAssistant(h).value != ""
    ensures var c := Chats.ChatByNumber(entries, n, false).value;
            ReadSavedChatNumber(s, entries, n)
            == Speak(s, "Chat " + BeforeLastDot(c.name) + " di tipo " + Chats.StyleName(c.style)
                        + ". Ultima risposta: " + LastAssistant(h).value)
  {
    LastReplyOfDecoded(Chats.ChatByNumber(entries, n, false).value.history, h);
  }

  /** A malformed item before the last reply does not stop read_saved_chat from reporting it. */
  lemma ReadSavedSkipsEarlierItems(s: Session, entries: seq<Chats.ChatEntry>, n: int,
                                   before: seq<Value>, reply: string, after: seq<Value>)
    requires Chats.ChatByNumber(entries, n, false).Success?
    requires Chats.ChatByNumber(entries, n, false).value.history
             == Arr(before + [Chats.MessageToValue(Message(ASSISTANT, reply))] + after)
    requires forall k :: 0 <= k < |after| ==> IsOtherItem(after[k])
    requires reply != ""
    ensures var c := Chats.ChatByNumber(entries, n, false).value;
            ReadSavedChatNumber(s, entries, n)
            == Speak(s, "Chat " + BeforeLastDot(c.name) + " di tipo " + Chats.StyleName(c.style)
                        + ". Ultima risposta: " + reply)
  {
    ScanStopsAtLastReply(before, Chats.MessageToValue(Message(ASSISTANT, reply)), after);
  }

  /** delete_chat: the new session and the chat directory afterwards. */
  function DeleteChat(s: Session, entries: seq<Chats.ChatEntry>, unlinkFails: bool): (r: (Session, seq<Chats.ChatEntry>))
    ensures SameConversation(r.0, s) && r.0.clipboard == s.clipboard && |r.0.speech| == |s.speech| + 1
    ensures unlinkFails ==> r.1 == entries
  {
    match ParseInt(ReadClipboard(s))
    case None => (Speak(s, ASK_DELETE_CHAT), entries)
    case Some(n) => DeleteChatNumber(s, entries, n, unlinkFails)
  }

  /** delete_chat once the number is known. */
  function DeleteChatNumber(s: Session, entries: seq<Chats.ChatEntry>, n: int, unlinkFails: bool)
    : (r: (Session, seq<Chats.ChatEntry>))
    ensures SameConversation(r.0, s) && r.0.clipboard == s.clipboard && |r.0.speech| == |s.speech| + 1
    ensures unlinkFails ==> r.1 == entries
    ensures !(1 <= n <= |Chats.ChatsListing(entries)|) ==>
              r == (Speak(s, Chats.CountError(|Chats.ChatsListing(entries)|)), entries)
  {
    var listing := Chats.ChatsListing(entries);
    if !(1 <= n <= |listing|) then (Speak(s, Chats.CountError(|listing|)), entries)
    else
      var name := listing[n - 1].name;
      if unlinkFails then (Speak(s, NOT_DELETED_CHAT), entries)
      else (Speak(s, "Ho eliminato la chat " + BeforeLastDot(name)), Chats.Without(entries, name))
  }

  /** Deleting chat n removes exactly the file of the n-th listed chat and keeps every other
      file. */
  lemma DeleteChatRemovesListed(s: Session, entries: seq<Chats.ChatEntry>, n: int)
    requires 1 <= n <= |Chats.ChatsListing(entries)|
    ensures var name := Chats.ChatsListing(entries)[n - 1].name;
            var r := DeleteChatNumber(s, entries, n, false).1;
            name in Chats.NamesOf(entries) && Chats.NamesOf(r) == Chats.NamesOf(entries) - {name}
            && forall e :: e in entries && e.name != name ==> e in r
  {
    Chats.WithoutListed(entries, n - 1);
  }

  /** A clipboard that is not a number makes every by-number handler ask for one, and
      nothing else: no file is read, changed or removed. */
  lemma NonNumberOnlyPrompts(s: Session, files: seq<Artifacts.ArtifactFile>, entries: seq<Chats.ChatEntry>,
                             unlinkFails: bool)
    requires ParseInt(ReadClipboard(s)).None?
    ensures ReadArtifact(s, files) == Speak(s, ASK_READ_ARTIFACT)
    ensures DeleteArtifact(s, files, unlinkFails) == (Speak(s, ASK_DELETE_ARTIFACT), files)
    ensures ReadSavedChat(s, entries) == Speak(s, ASK_READ_CHAT)
    ensures DeleteChat(s, entries, unlinkFails) == (Speak(s, ASK_DELETE_CHAT), entries)
  {
  }
}
