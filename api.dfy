// ui/api.py: the Api the user interface calls. Each call answers with a result dictionary
// and may change the session, the stores and the speech of the application it wraps.
module UiApi {
  import opened Wrappers
  import opened Text
  import opened Json
  import opened Base
  import Settings
  import Provider
  import Artifacts
  import Chats
  import opened AppState
  import App

  /** The dictionary an Api call returns: {'success': …, 'content': …, 'error': …}. */
  datatype ApiResult = ApiResult(success: bool, content: Option<string>, error: Option<string>)

  const OK := ApiResult(true, None, None)

  function Failed(e: string): ApiResult {
    ApiResult(false, None, Some(e))
  }

  const CREATIVE_PREFIX := "Ho un testo creativo esistente che vorrei modificare e migliorare. "
    + "Analizzalo e suggeriscimi diverse direzioni creative per svilupparlo "
    + "ulteriormente, considerando elementi come stile, tono, struttura e contenuto. "
    + "Ecco il testo originale:\n\n"
  const ARTICLE_PREFIX := "Ho un articolo esistente che vorrei revisionare e migliorare. "
    + "Analizzalo e suggeriscimi come potremmo migliorarlo in termini di "
    + "struttura, chiarezza, argomentazione e impatto comunicativo. "
    + "Ecco il testo originale:\n\n"
  const NO_ASSISTANT_RESPONSE := "No assistant response found in chat"

  // ---- Listings ----

  /** One entry of list_artifacts: the file name, its date and its number. */
  datatype ArtifactItem = ArtifactItem(name: string, date: int, number: int)

  /** One entry of list_chats: the file name, its date, its number and its style value. */
  datatype ChatItem = ChatItem(name: string, date: int, number: int, kind: string)

  /** list_artifacts */
  function ArtifactItems(files: seq<Artifacts.ArtifactFile>): (r: seq<ArtifactItem>)
    ensures |r| == |Artifacts.ArtifactsListing(files)|
  {
    var listing := Artifacts.ArtifactsListing(files);
    seq(|listing|, i requires 0 <= i < |listing| => ArtifactItem(listing[i].name, listing[i].mtime, i + 1))
  }

  /** list_chats */
  function ChatItems(entries: seq<Chats.ChatEntry>): (r: seq<ChatItem>)
    ensures |r| == |Chats.ChatsListing(entries)|
  {
    var listing := Chats.ChatsListing(entries);
    seq(|listing|, i requires 0 <= i < |listing| =>
      ChatItem(listing[i].name, listing[i].savedAt, i + 1, StyleValue(listing[i].style)))
  }

  /** The numbers list_artifacts shows are recency ranks, and each is the number
      get_artifact_by_number accepts for that very file. */
  lemma ArtifactItemsAreRanks(files: seq<Artifacts.ArtifactFile>, k: int)
    requires 0 <= k < |ArtifactItems(files)|
    ensures var item := ArtifactItems(files)[k];
            item.number == k + 1 && item.name == Artifacts.ArtifactsListing(files)[k].name
            && Artifacts.ArtifactByNumber(files, item.number).Success?
            && Artifacts.ArtifactByNumber(files, item.number).value.0 == item.name
  {
    Artifacts.ListingSpec(files);
  }

  /** The numbers list_chats shows are recency ranks, each the rank get_chat_by_number and
      delete_chat_by_number accept for that chat, and its type is the stored style. */
  lemma ChatItemsAreRanks(entries: seq<Chats.ChatEntry>, k: int)
    requires 0 <= k < |ChatItems(entries)|
    ensures var item := ChatItems(entries)[k];
            var c := Chats.ChatsListing(entries)[k];
            item.number == k + 1 && item.name == c.name && item.date == c.savedAt
            && Base.StyleFromValue(item.kind) == Some(c.style)
            && ("history" in c.fields ==>
                  Chats.ChatByNumber(entries, item.number, false).Success?
                  && Chats.ChatByNumber(entries, item.number, false).value.name == item.name)
  {
    var c := Chats.ChatsListing(entries)[k];
    assert StyleValue(c.style) == ChatItems(entries)[k].kind;
  }

  // ---- Page readers ----

  /** The style_names dictionary of read_chats_page. */
  const STYLE_LABELS: map<string, string> :=
    map["translation" := "traduzione", "chat" := "chat", "exploration" := "esplorazione",
        "creative_writing" := "scrittura creativa", "article_writing" := "scrittura articoli"]

  /** style_names.get(type, type) */
  function StyleLabel(kind: string): string {
    if kind in STYLE_LABELS then STYLE_LABELS[kind] else kind
  }

  /** The page reader names a listed style as the application does, and an unknown type as
      it is. */
  lemma StyleLabelAgrees(style: SessionStyle, kind: string)
    ensures StyleLabel(StyleValue(style)) == Chats.StyleName(style)
    ensures Base.StyleFromValue(kind).None? ==> StyleLabel(kind) == kind
  {
  }

  function ArtifactLine(idx: int, item: ArtifactItem, fmt: int -> string): string {
    "Numero " + IntToString(idx) + ": " + BeforeLastDot(item.name) + ", salvato il " + fmt(item.date)
  }

  function ChatLine(idx: int, item: ChatItem, fmt: int -> string): string {
    "Numero " + IntToString(idx) + ": " + BeforeLastDot(item.name) + ", " + StyleLabel(item.kind)
    + ", salvata il " + fmt(item.date)
  }

  function ArtifactLines(items: seq<ArtifactItem>, fmt: int -> string): seq<string> {
    seq(|items|, k requires 0 <= k < |items| => ArtifactLine(k + 1, items[k], fmt))
  }

  function ChatLines(items: seq<ChatItem>, fmt: int -> string): seq<string> {
    seq(|items|, k requires 0 <= k < |items| => ChatLine(k + 1, items[k], fmt))
  }

  /** What read_artifacts_page speaks for a page of items out of total artifacts. */
  function ArtifactsPageText(items: seq<ArtifactItem>, total: int, fmt: int -> string): string {
    var intro := "Trovati " + IntToString(total) + " artefatti totali. ";
    if items == [] then intro + "Nessun artefatto in questa pagina."
    else intro + "In questa pagina: " + Join(ArtifactLines(items, fmt), ". ")
  }

  /** What read_chats_page speaks for a page of items out of total chats. */
  function ChatsPageText(items: seq<ChatItem>, total: int, fmt: int -> string): string {
    var intro := "Trovate " + IntToString(total) + " chat totali. ";
    if items == [] then intro + "Nessuna chat in questa pagina."
    else intro + "In questa pagina: " + Join(ChatLines(items, fmt), ". ")
  }

  /** The page readers number the items of the page from 1, whatever their global numbers,
      one line per item; the total is only spoken in the introduction. */
  lemma PageNumbersAreLocal(aItems: seq<ArtifactItem>, cItems: seq<ChatItem>, fmt: int -> string, k: int)
    ensures |ArtifactLines(aItems, fmt)| == |aItems| && |ChatLines(cItems, fmt)| == |cItems|
    ensures 0 <= k < |aItems| ==>
              StartsWith(ArtifactLines(aItems, fmt)[k], "Numero " + IntToString(k + 1) + ": ")
    ensures 0 <= k < |cItems| ==>
              StartsWith(ChatLines(cItems, fmt)[k], "Numero " + IntToString(k + 1) + ": ")
  {
    if 0 <= k < |aItems| {
      var p := "Numero " + IntToString(k + 1) + ": ";
      assert ArtifactLines(aItems, fmt)[k][..|p|] == p;
    }
    if 0 <= k < |cItems| {
      var p := "Numero " + IntToString(k + 1) + ": ";
      assert ChatLines(cItems, fmt)[k][..|p|] == p;
    }
  }

  /** A page reader stops the speech first and then speaks the page. */
  function PageRead(s: Session, text: string): Session {
    Speak(Control(s, StopCall), text)
  }

  // ---- Reading and deleting by number ----

  /** read_artifact */
  function ArtifactRead(s: Session, files: seq<Artifacts.ArtifactFile>, n: int): (r: (Session, ApiResult))
    ensures SameConversation(r.0, s) && r.0.clipboard == s.clipboard
    ensures r.1.success <==> 1 <= n <= |Artifacts.TxtFiles(files)|
    ensures !r.1.success ==> r == (s, Failed(Artifacts.CountError(|Artifacts.TxtFiles(files)|)))
    ensures r.1.success ==>
              exists f :: f in files && EndsWith(f.name, Artifacts.TXT)
                          && r == (Speak(s, f.content), ApiResult(true, Some(f.content), None))
  {
    match Artifacts.ArtifactByNumber(files, n)
    case Failure(e) => (s, Failed(e))
    case Success(found) => (Speak(s, found.1), ApiResult(true, Some(found.1), None))
  }

  /** read_chat */
  function ChatRead(s: Session, entries: seq<Chats.ChatEntry>, n: int): (r: (Session, ApiResult))
    ensures r.1.success ==> r.1.content.Some? && r.1.error.None? && r.0 == Speak(s, r.1.content.value)
    ensures !r.1.success ==> r.0 == s && r.1.content.None?
    ensures Chats.ChatByNumber(entries, n, false).Failure? ==>
              r == (s, Failed(Chats.ChatByNumber(entries, n, false).error))
    ensures Chats.ChatByNumber(entries, n, false).Success?
            && LastReplyOf(Chats.ChatByNumber(entries, n, false).value.history).Failure? ==>
              r == (s, Failed(LastReplyOf(Chats.ChatByNumber(entries, n, false).value.history).error))
  {
    match Chats.ChatByNumber(entries, n, false)
    case Failure(e) => (s, Failed(e))
    case Success(c) =>
      match LastReplyOf(c.history)
      case Failure(e) => (s, Failed(e))
      case Success(last) =>
        if last.Some? && Truthy(last.value) then
          (Speak(s, Show(last.value)), ApiResult(true, Some(Show(last.value)), None))
        else (s, Failed(NO_ASSISTANT_RESPONSE))
  }

  /** read_chat answers with the last assistant reply of the stored history and speaks it;
      a history without one (or whose last reply is empty) is a failure and nothing is said. */
  lemma ChatReadReturnsLastReply(s: Session, entries: seq<Chats.ChatEntry>, n: int, h: seq<Message>)
    requires Chats.ChatByNumber(entries, n, false).Success?
    requires Chats.HistoryFromValue(Chats.ChatByNumber(entries, n, false).value.history) == Some(h)
    ensures var r := ChatRead(s, entries, n);
            (r.1.success <==> exists i :: 0 <= i < |h| && h[i].role == ASSISTANT && h[i].content != ""
                                          && forall j :: i < j < |h| ==> h[j].role != ASSISTANT)
            && (r.1.success ==> r.1.content.Some? && r.0 == Speak(s, r.1.content.value)
                                && exists i :: 0 <= i < |h| && h[i].role == ASSISTANT && h[i].content == r.1.content.value)
            && (!r.1.success ==> r == (s, Failed(NO_ASSISTANT_RESPONSE)))
  {
    LastReplyOfDecoded(Chats.ChatByNumber(entries, n, false).value.history, h);
    var last := LastAssistant(h);
    if last.Some? {
      var i :| 0 <= i < |h| && h[i].role == ASSISTANT && h[i].content == last.value
               && forall j :: i < j < |h| ==> h[j].role != ASSISTANT;
      forall i' | 0 <= i' < |h| && h[i'].role == ASSISTANT && forall j :: i' < j < |h| ==> h[j].role != ASSISTANT
        ensures i' == i
      {
        if i' < i {
          assert false;
        } else if i < i' {
          assert false;
        }
      }
    }
  }

  /** delete_artifact: the session, the directory afterwards and the answer. */
  function ArtifactDeleted(s: Session, files: seq<Artifacts.ArtifactFile>, n: int, unlinkFails: bool)
    : (r: (Session, seq<Artifacts.ArtifactFile>, ApiResult))
    ensures SameConversation(r.0, s) && r.0.clipboard == s.clipboard
    ensures !(1 <= n <= |Artifacts.TxtFiles(files)|) ==>
              r == (s, files, Failed(Artifacts.CountError(|Artifacts.TxtFiles(files)|)))
    ensures 1 <= n <= |Artifacts.TxtFiles(files)| ==> r.2.success == !unlinkFails
    ensures unlinkFails ==> r.0 == s && r.1 == files
  {
    match Artifacts.ArtifactByNumber(files, n)
    case Failure(e) => (s, files, Failed(e))
    case Success(found) =>
      var name := found.0;
      var ok := name in Artifacts.NamesOf(files) && !unlinkFails;
      if ok then (Speak(s, "Artefatto " + name + " cancellato con successo"), Artifacts.Without(files, name), ApiResult(true, None, None))
      else (s, files, ApiResult(false, None, None))
  }

  /** Deleting artifact n succeeds exactly when the file can be removed; it removes that one
      listed file and keeps every other one. */
  lemma ArtifactDeletedRemovesListed(s: Session, files: seq<Artifacts.ArtifactFile>, n: int)
    requires 1 <= n <= |Artifacts.TxtFiles(files)|
    ensures var name := Artifacts.ArtifactByNumber(files, n).value.0;
            var r := ArtifactDeleted(s, files, n, false);
            r.2.success && name in Artifacts.NamesOf(files)
            && Artifacts.NamesOf(r.1) == Artifacts.NamesOf(files) - {name}
            && r.0 == Speak(s, "Artefatto " + name + " cancellato con successo")
  {
    var name := Artifacts.ArtifactByNumber(files, n).value.0;
    var f :| f in files && EndsWith(f.name, Artifacts.TXT)
             && Artifacts.ArtifactByNumber(files, n).value == (f.name, f.content);
    assert name in Artifacts.NamesOf(files);
    Artifacts.WithoutNames(files, name);
  }

  /** delete_chat */
  function ChatDeleted(s: Session, entries: seq<Chats.ChatEntry>, n: int, unlinkFails: bool)
    : (r: (Session, seq<Chats.ChatEntry>, ApiResult))
    ensures SameConversation(r.0, s) && r.0.clipboard == s.clipboard
    ensures !(1 <= n <= |Chats.ChatsListing(entries)|) ==>
              r == (s, entries, Failed(Chats.CountError(|Chats.ChatsListing(entries)|)))
    ensures 1 <= n <= |Chats.ChatsListing(entries)| ==> r.2.success == !unlinkFails
    ensures unlinkFails ==> r.0 == s && r.1 == entries
  {
    var listing := Chats.ChatsListing(entries);
    if !(1 <= n <= |listing|) then (s, entries, Failed(Chats.CountError(|listing|)))
    else
      var name := listing[n - 1].name;
      if unlinkFails then (s, entries, ApiResult(false, None, None))
      else (Speak(s, "Chat " + name + " eliminata con successo"), Chats.Without(entries, name), ApiResult(true, None, None))
  }

  /** Deleting chat n removes the file of the n-th listed chat and nothing else. */
  lemma ChatDeletedRemovesListed(s: Session, entries: seq<Chats.ChatEntry>, n: int)
    requires 1 <= n <= |Chats.ChatsListing(entries)|
    ensures var name := Chats.ChatsListing(entries)[n - 1].name;
            var r := ChatDeleted(s, entries, n, false).1;
            name in Chats.NamesOf(entries) && Chats.NamesOf(r) == Chats.NamesOf(entries) - {name}
  {
    Chats.WithoutListed(entries, n - 1);
    assert ChatDeleted(s, entries, n, false).1 == Chats.Without(entries, Chats.ChatsListing(entries)[n - 1].name);
  }

  // ---- Resuming ----

  /** The request the resume_*_artifact calls send: the style's instructions, then the text. */
  function ResumePrompt(target: SessionStyle, content: string): (r: string)
    ensures EndsWith(r, content)
  {
    var prefix := if target == CreativeWriting then CREATIVE_PREFIX else ARTICLE_PREFIX;
    assert (prefix + content)[|prefix| + |content| - |content|..] == content;
    prefix + content
  }

  /** Records a reply to a resume request and speaks it; a failure changes nothing more. */
  function Continued(s: Session, prompt: string, reply: Result<Response>): (r: (Session, ApiResult))
    ensures SameConversation(r.0.(history := s.history), s) && r.0.clipboard == s.clipboard
    ensures reply.Failure? ==> r == (s, Failed(reply.error))
    ensures reply.Success? ==>
              r.1 == OK && r.0.history == s.history + Exchange(prompt, reply.value.content)
              && r.0.speech == s.speech + [Say(reply.value.content)]
  {
    match reply
    case Failure(e) => (s, Failed(e))
    case Success(resp) => (Speak(s.(history := s.history + Exchange(prompt, resp.content)), resp.content), OK)
  }

  /** The session once resume_*_artifact has switched style and named the conversation
      after the file. */
  function Reopened(s: Session, settings: Value, name: string, target: SessionStyle): Session
    requires Settings.ModelsTable(settings).Obj?
  {
    AppState.HandleMode(s, settings, target).(title := Some(BeforeLastDot(name)))
  }

  /** resume_creative_artifact (target CreativeWriting) and resume_article_artifact (target
      ArticleWriting). */
  function ResumedArtifact(s: Session, settings: Value, files: seq<Artifacts.ArtifactFile>, n: int,
                           target: SessionStyle, backend: Provider.Backend): (r: (Session, ApiResult))
    requires Settings.ModelsTable(settings).Obj?
  {
    match Artifacts.ArtifactByNumber(files, n)
    case Failure(e) => (s, Failed(e))
    case Success(found) =>
      var s1 := Reopened(s, settings, found.0, target);
      var prompt := ResumePrompt(target, found.1);
      Continued(s1, prompt, Provider.Respond(prompt, ContextOf(s1), backend))
  }

  /** Resuming an artifact puts the session in the target style, names it after the file
      without its extension and appends exactly one exchange whose request ends with the
      file's text. The history before it is kept only when the session was already in the
      target style; a provider failure appends nothing but leaves the switch and the title. */
  lemma ResumedArtifactContinues(s: Session, settings: Value, files: seq<Artifacts.ArtifactFile>, n: int,
                                 target: SessionStyle, backend: Provider.Backend)
    requires Settings.ModelsTable(settings).Obj?
    requires Artifacts.ArtifactByNumber(files, n).Success?
    ensures var (name, content) := Artifacts.ArtifactByNumber(files, n).value;
            var r := ResumedArtifact(s, settings, files, n, target, backend);
            var prior := if s.mode == target then s.history else [];
            var reply := Provider.Respond(ResumePrompt(target, content), ContextOf(Reopened(s, settings, name, target)), backend);
            r.0.mode == target && r.0.title == Some(BeforeLastDot(name))
            && r.0.modelConfig == (if s.mode == target then s.modelConfig else ModeConfig(settings, target))
            && (reply.Success? ==>
                  r.1.success && r.0.history == prior + [Message(USER, ResumePrompt(target, content)), Message(ASSISTANT, reply.value.content)]
                  && EndsWith(r.0.history[|prior|].content, content))
            && (reply.Failure? ==> !r.1.success && r.1.error == Some(reply.error) && r.0.history == prior)
  {
    var (name, content) := Artifacts.ArtifactByNumber(files, n).value;
    var s1 := Reopened(s, settings, name, target);
    var prompt := ResumePrompt(target, content);
    var reply := Provider.Respond(prompt, ContextOf(s1), backend);
    if s.mode == target {
      AppState.HandleModeSameStyle(s, settings, target);
    } else {
      AppState.HandleModeSwitch(s, settings, target);
    }
    assert ResumedArtifact(s, settings, files, n, target, backend) == Continued(s1, prompt, reply);
  }

  /** A stored title that is a string becomes the session title; anything else clears it. */
  function StoredTitle(t: Option<Value>): Option<string> {
    if t.Some? && t.value.Str? then Some(t.value.s) else None
  }

  /** What resume_chat says once the chat is installed. */
  function ResumedLine(name: string, last: Option<Value>): string {
    if last.Some? && Truthy(last.value) then "Ho ripreso la chat " + BeforeLastDot(name) + ". Ultima risposta: " + Show(last.value)
    else "Ho ripreso la chat " + BeforeLastDot(name)
  }

  /** resume_chat: the stored title is set first, then the stored style, then the stored
      history replaces the current one and the backward scan looks for its last reply. A
      history the scan cannot read fails with the scan's error after the title and the style
      are set; a history the scan reads but whose items are not all messages is reported as
      resumed while the current history stays. */
  function ResumedChat(s: Session, settings: Value, entries: seq<Chats.ChatEntry>, n: int): (r: (Session, ApiResult))
    requires Settings.ModelsTable(settings).Obj?
    ensures Chats.ChatByNumber(entries, n, true).Failure? ==>
              r == (s, Failed(Chats.ChatByNumber(entries, n, true).error))
    ensures Chats.ChatByNumber(entries, n, true).Success? ==>
              r.0.mode == Chats.ChatByNumber(entries, n, true).value.style && r.0.clipboard == s.clipboard
    ensures r.1.success <==> Chats.ChatByNumber(entries, n, true).Success?
                             && LastReplyOf(Chats.ChatByNumber(entries, n, true).value.history).Success?
    ensures r.1.success ==> r.1 == OK && |r.0.speech| == |s.speech| + 1
    ensures !r.1.success ==> r.0.speech == s.speech && (r.0.history == s.history || r.0.history == [])
  {
    match Chats.ChatByNumber(entries, n, true)
    case Failure(e) => (s, Failed(e))
    case Success(c) =>
      var s1 := AppState.HandleMode(s.(title := StoredTitle(c.title)), settings, c.style);
      match LastReplyOf(c.history)
      case Failure(e) => (s1, Failed(e))
      case Success(last) =>
        var installed := match Chats.HistoryFromValue(c.history) case Some(h) => h case None => s1.history;
        (Speak(s1.(history := installed), ResumedLine(c.name, last)), OK)
  }

  /** Resuming a chat installs its style, its configuration and its stored history verbatim.
      The stored title survives only when the session was already in the stored style: the
      title is set before the style switch, and a switch clears it. */
  lemma ResumedChatInstalls(s: Session, settings: Value, entries: seq<Chats.ChatEntry>, n: int, h: seq<Message>)
    requires Settings.ModelsTable(settings).Obj?
    requires Chats.ChatByNumber(entries, n, true).Success?
    requires Chats.HistoryFromValue(Chats.ChatByNumber(entries, n, true).value.history) == Some(h)
    ensures var c := Chats.ChatByNumber(entries, n, true).value;
            var r := ResumedChat(s, settings, entries, n);
            r.1.success && r.0.mode == c.style && r.0.history == h
            && r.0.modelConfig == (if s.mode == c.style then s.modelConfig else ModeConfig(settings, c.style))
            && (s.mode == c.style ==> r.0.title == StoredTitle(c.title))
            && (s.mode != c.style ==> r.0.title == None)
            && r.0.speech == s.speech + [Say(ResumedLine(c.name, AsReply(LastAssistant(h))))]
  {
    var c := Chats.ChatByNumber(entries, n, true).value;
    LastReplyOfDecoded(c.history, h);
    if s.mode == c.style {
      AppState.HandleModeSameStyle(s.(title := StoredTitle(c.title)), settings, c.style);
    } else {
      AppState.HandleModeSwitch(s.(title := StoredTitle(c.title)), settings, c.style);
    }
  }

  /** A chat saved from a session and then resumed by its number brings back that session's
      history exactly. */
  lemma ResumeAfterSave(s: Session, settings: Value, entries: seq<Chats.ChatEntry>, n: int, saved: seq<Message>)
    requires Settings.ModelsTable(settings).Obj?
    requires Chats.ChatByNumber(entries, n, true).Success?
    requires Chats.ChatByNumber(entries, n, true).value.history == Chats.HistoryToValue(saved)
    ensures ResumedChat(s, settings, entries, n).0.history == saved
    ensures ResumedChat(s, settings, entries, n).1.success
  {
    Chats.HistoryRoundTrip(saved);
    ResumedChatInstalls(s, settings, entries, n, saved);
  }

  /** The Api object over one application. */
  class Api {
    const app: App.NAIADApplication

    constructor(app: App.NAIADApplication)
      ensures this.app == app
    {
      this.app := app;
    }

    /** list_artifacts */
    method ListArtifacts() returns (items: seq<ArtifactItem>)
      ensures items == ArtifactItems(app.artifacts.files)
    {
      var listing := app.artifacts.GetArtifactsList();
      items := [];
      var i := 0;
      while i < |listing|
        invariant 0 <= i <= |listing|
        invariant |items| == i
        invariant forall k :: 0 <= k < i ==> items[k] == ArtifactItem(listing[k].name, listing[k].mtime, k + 1)
      {
        items := items + [ArtifactItem(listing[i].name, listing[i].mtime, i + 1)];
        i := i + 1;
      }
    }

    /** list_chats */
    method ListChats() returns (items: seq<ChatItem>)
      ensures items == ChatItems(app.chats.entries)
    {
      var listing := app.chats.GetChatsList();
      items := [];
      var i := 0;
      while i < |listing|
        invariant 0 <= i <= |listing|
        invariant |items| == i
        invariant forall k :: 0 <= k < i ==>
                    items[k] == ChatItem(listing[k].name, listing[k].savedAt, k + 1, StyleValue(listing[k].style))
      {
        items := items + [ChatItem(listing[i].name, listing[i].savedAt, i + 1, StyleValue(listing[i].style))];
        i := i + 1;
      }
    }

    /** read_artifacts_page */
    method ReadArtifactsPage(items: seq<ArtifactItem>, total: int, fmt: int -> string) returns (r: ApiResult)
      modifies app
      ensures r == OK
      ensures app.State() == PageRead(old(app.State()), ArtifactsPageText(items, total, fmt))
    {
      app.SpeechControl(StopCall);
      var intro := "Trovati " + IntToString(total) + " artefatti totali. ";
      if items == [] {
        app.SpeakText(intro + "Nessun artefatto in questa pagina.");
        return OK;
      }
      var lines := [];
      var i := 0;
      while i < |items|
        invariant 0 <= i <= |items|
        invariant lines == ArtifactLines(items[..i], fmt)
      {
        lines := lines + [ArtifactLine(i + 1, items[i], fmt)];
        i := i + 1;
        assert items[..i][..i - 1] == items[..i - 1];
      }
      assert items[..i] == items;
      app.SpeakText(intro + "In questa pagina: " + Join(lines, ". "));
      r := OK;
    }

    /** read_chats_page */
    method ReadChatsPage(items: seq<ChatItem>, total: int, fmt: int -> string) returns (r: ApiResult)
      modifies app
      ensures r == OK
      ensures app.State() == PageRead(old(app.State()), ChatsPageText(items, total, fmt))
    {
      app.SpeechControl(StopCall);
      var intro := "Trovate " + IntToString(total) + " chat totali. ";
      if items == [] {
        app.SpeakText(intro + "Nessuna chat in questa pagina.");
        return OK;
      }
      var lines := [];
      var i := 0;
      while i < |items|
        invariant 0 <= i <= |items|
        invariant lines == ChatLines(items[..i], fmt)
      {
        var style := StyleLabel(items[i].kind);
        lines := lines + ["Numero " + IntToString(i + 1) + ": " + BeforeLastDot(items[i].name) + ", " + style
                          + ", salvata il " + fmt(items[i].date)];
        i := i + 1;
        assert items[..i][..i - 1] == items[..i - 1];
      }
      assert items[..i] == items;
      app.SpeakText(intro + "In questa pagina: " + Join(lines, ". "));
      r := OK;
    }

    /** read_artifact */
    method ReadArtifact(number: int) returns (r: ApiResult)
      requires app.Valid()
      modifies app
      ensures app.Valid()
      ensures (app.State(), r) == ArtifactRead(old(app.State()), app.artifacts.files, number)
    {
      var found := app.artifacts.GetArtifactByNumber(number);
      if found.Failure? {
        return Failed(found.error);
      }
      var (_, content) := found.value;
      app.SpeakText(content);
      r := ApiResult(true, Some(content), None);
    }

    /** read_chat */
    method ReadChat(number: int) returns (r: ApiResult)
      requires app.Valid()
      modifies app
      ensures app.Valid()
      ensures (app.State(), r) == ChatRead(old(app.State()), app.chats.entries, number)
    {
      var found := app.chats.GetChatByNumber(number, false);
      if found.Failure? {
        return Failed(found.error);
      }
      var last := FindLastReply(found.value.history);
      if last.Failure? {
        return Failed(last.error);
      }
      if last.value.Some? && Truthy(last.value.value) {
        app.SpeakText(Show(last.value.value));
        return ApiResult(true, Some(Show(last.value.value)), None);
      }
      r := Failed(NO_ASSISTANT_RESPONSE);
    }

    /** delete_artifact */
    method DeleteArtifact(number: int, unlinkFails: bool) returns (r: ApiResult)
      requires app.Valid()
      modifies app, app.artifacts
      ensures app.Valid()
      ensures (app.State(), app.artifacts.files, r)
              == ArtifactDeleted(old(app.State()), old(app.artifacts.files), number, unlinkFails)
    {
      var found := app.artifacts.GetArtifactByNumber(number);
      if found.Failure? {
        return Failed(found.error);
      }
      var filename := found.value.0;
      var success := app.artifacts.DeleteArtifact(filename, unlinkFails);
      if success {
        app.SpeakText("Artefatto " + filename + " cancellato con successo");
      }
      r := ApiResult(success, None, None);
    }

    /** delete_chat */
    method DeleteChat(number: int, unlinkFails: bool) returns (r: ApiResult)
      requires app.Valid()
      modifies app, app.chats
      ensures app.Valid()
      ensures (app.State(), app.chats.entries, r)
              == ChatDeleted(old(app.State()), old(app.chats.entries), number, unlinkFails)
    {
      var deleted := app.chats.DeleteChatByNumber(number, unlinkFails);
      if deleted.Failure? {
        return Failed(deleted.error);
      }
      var (success, filename) := deleted.value;
      if success {
        app.SpeakText("Chat " + filename + " eliminata con successo");
      }
      r := ApiResult(success, None, None);
    }

    /** The two resume_*_artifact calls. */
    method ResumeArtifact(number: int, target: SessionStyle, backend: Provider.Backend) returns (r: ApiResult)
      requires app.Valid()
      modifies app
      ensures app.Valid()
      ensures (app.State(), r) == ResumedArtifact(old(app.State()), app.settings, app.artifacts.files, number, target, backend)
    {
      var found := app.artifacts.GetArtifactByNumber(number);
      if found.Failure? {
        return Failed(found.error);
      }
      var (filename, content) := found.value;
      app.HandleMode(target);
      app.title := Some(BeforeLastDot(filename));
      var prompt := ResumePrompt(target, content);
      var reply := Provider.GenerateResponse(prompt, ContextOf(app.State()), backend);
      if reply.Failure? {
        return Failed(reply.error);
      }
      app.history := app.history + [Message(USER, prompt), Message(ASSISTANT, reply.value.content)];
      app.SpeakText(reply.value.content);
      r := OK;
    }

    /** resume_creative_artifact */
    method ResumeCreativeArtifact(number: int, backend: Provider.Backend) returns (r: ApiResult)
      requires app.Valid()
      modifies app
      ensures app.Valid()
      ensures (app.State(), r) == ResumedArtifact(old(app.State()), app.settings, app.artifacts.files, number, CreativeWriting, backend)
    {
      r := ResumeArtifact(number, CreativeWriting, backend);
    }

    /** resume_article_artifact */
    method ResumeArticleArtifact(number: int, backend: Provider.Backend) returns (r: ApiResult)
      requires app.Valid()
      modifies app
      ensures app.Valid()
      ensures (app.State(), r) == ResumedArtifact(old(app.State()), app.settings, app.artifacts.files, number, ArticleWriting, backend)
    {
      r := ResumeArtifact(number, ArticleWriting, backend);
    }

    /** resume_chat */
    method ResumeChat(number: int) returns (r: ApiResult)
      requires app.Valid()
      modifies app
      ensures app.Valid()
      ensures (app.State(), r) == ResumedChat(old(app.State()), app.settings, app.chats.entries, number)
    {
      var found := app.chats.GetChatByNumber(number, true);
      if found.Failure? {
        return Failed(found.error);
      }
      var c := found.value;
      app.title := StoredTitle(c.title);
      app.HandleMode(c.style);
      var last := FindLastReply(c.history);
      if last.Failure? {
        return Failed(last.error);
      }
      var h := Chats.HistoryFromValue(c.history);
      if h.Some? {
        app.history := h.value;
      }
      if last.value.Some? && Truthy(last.value.value) {
        app.SpeakText("Ho ripreso la chat " + BeforeLastDot(c.name) + ". Ultima risposta: " + Show(last.value.value));
      } else {
        app.SpeakText("Ho ripreso la chat " + BeforeLastDot(c.name));
      }
      r := OK;
    }
  }
}
