// core/main.py: NAIADApplication, the object whose fields the trigger handlers update. Each
// handler is proved to leave the state the corresponding AppState function describes.
module App {
  import opened Wrappers
  import opened Text
  import opened Json
  import opened Base
  import Settings
  import Provider
  import Artifacts
  import Chats
  import opened AppState

  class NAIADApplication {
    const settings: Value
    var mode: SessionStyle
    var history: seq<Message>
    var modelConfig: Value
    var title: Option<string>
    var clipboard: string
    var speech: seq<SpeechCall>
    const artifacts: Artifacts.ArtifactManager
    const chats: Chats.ChatManager

    function State(): Session
      reads this
    {
      Session(mode, history, modelConfig, title, clipboard, speech)
    }

    /** The settings hold a models table, and both stores keep distinct file names. */
    predicate Valid()
      reads this, artifacts, chats
    {
      Settings.ModelsTable(settings).Obj? && artifacts.Valid() && chats.Valid()
    }

    /** __init__ and setup over the files already in the two directories. */
    constructor(settings: Value, clipboard: string, artifactFiles: seq<Artifacts.ArtifactFile>,
                chatFiles: seq<Chats.ChatEntry>)
      requires Settings.ModelsTable(settings).Obj?
      requires Artifacts.DistinctNames(artifactFiles) && Chats.DistinctNames(chatFiles)
      ensures Valid() && fresh(artifacts) && fresh(chats)
      ensures this.settings == settings && State() == Initial(settings, clipboard)
      ensures artifacts.files == artifactFiles && chats.entries == chatFiles
    {
      this.settings := settings;
      mode := Translation;
      history := [];
      title := None;
      this.clipboard := clipboard;
      speech := [];
      var initial := GetOr(Settings.ModelsTable(settings).fields, StyleValue(Translation), Obj(map[]));
      if !Truthy(initial) {
        initial := FallbackConfig(settings);
      }
      modelConfig := initial;
      artifacts := new Artifacts.ArtifactManager(artifactFiles);
      chats := new Chats.ChatManager(chatFiles);
    }

    /** get_clipboard_content */
    method GetClipboardContent() returns (r: string)
      ensures r == ReadClipboard(State())
    {
      r := Strip(clipboard);
    }

    /** set_clipboard_content */
    method SetClipboardContent(content: string)
      modifies this
      ensures State() == SetClipboard(old(State()), content)
    {
      if content != "" {
        clipboard := content;
      }
    }

    /** tts.speak */
    method SpeakText(text: string)
      modifies this
      ensures State() == Speak(old(State()), text)
    {
      speech := speech + [Say(text)];
    }

    /** tts.pause / resume / stop / restart / mute / unmute */
    method SpeechControl(c: SpeechCall)
      modifies this
      ensures State() == Control(old(State()), c)
    {
      speech := speech + [c];
    }

    /** An outside program (the communication grid) writes the clipboard between cycles. */
    method PasteFromOutside(text: string)
      modifies this
      ensures State() == old(State()).(clipboard := text)
    {
      clipboard := text;
    }

    /** handle_mode */
    method HandleMode(newMode: SessionStyle)
      requires Valid()
      modifies this
      ensures Valid()
      ensures State() == AppState.HandleMode(old(State()), settings, newMode)
    {
      if mode != newMode {
        mode := newMode;
        history := [];
        title := None;
        var config := GetOr(Settings.ModelsTable(settings).fields, StyleValue(newMode), Obj(map[]));
        if !Truthy(config) {
          config := FallbackConfig(settings);
        }
        modelConfig := config;
      }
    }

    /** The clean_history trigger. */
    method CleanHistory()
      requires Valid()
      modifies this
      ensures Valid()
      ensures State() == AppState.CleanHistory(old(State()))
    {
      history := [];
    }

    /** Records a provider reply, speaks it and copies it; a failure goes to the clipboard. */
    method Record(prompt: string, reply: Result<Response>)
      requires Valid()
      modifies this
      ensures Valid()
      ensures State() == Answered(old(State()), prompt, reply)
    {
      if reply.Failure? {
        SetClipboardContent("Errore: " + reply.error);
        return;
      }
      history := history + [Message(USER, prompt), Message(ASSISTANT, reply.value.content)];
      SpeakText(reply.value.content);
      SetClipboardContent(reply.value.content);
    }

    /** process_clipboard */
    method ProcessClipboard(backend: Provider.Backend)
      requires Valid()
      modifies this
      ensures Valid()
      ensures State() == AppState.ProcessClipboard(old(State()), backend)
    {
      var prompt := GetClipboardContent();
      if prompt == "" {
        return;
      }
      if |history| >= 1 {
        var last := history[|history| - 1];
        if last.role == ASSISTANT && prompt == last.content {
          return;
        }
        if |history| >= 2 {
          var lastPrompt := history[|history| - 2];
          if lastPrompt.role == USER && prompt == lastPrompt.content && !IsDigits(prompt) {
            return;
          }
        }
      }
      var reply := Provider.GenerateResponse(prompt, ContextOf(State()), backend);
      Record(prompt, reply);
    }

    /** retryTranslation */
    method RetryTranslation(backend: Provider.Backend)
      requires Valid()
      modifies this
      ensures Valid()
      ensures State() == AppState.RetryTranslation(old(State()), backend)
    {
      var reply := Provider.GenerateResponse(RETRY_PROMPT, ContextOf(State()), backend);
      Record(RETRY_PROMPT, reply);
    }

    /** print_session_content: returns the name the artifact was saved under, if it was. */
    method PrintSessionContent(backend: Provider.Backend, now: int, writeError: Option<string>)
      returns (saved: Option<string>)
      requires Valid()
      modifies this, artifacts
      ensures Valid()
      ensures var reply := Provider.Respond(PRINT_PROMPT, ContextOf(old(State())), backend);
              State() == Printed(old(State()), reply, saved)
              && (old(history) == [] || reply.Failure? ==> saved.None? && artifacts.files == old(artifacts.files))
              && (old(history) != [] && reply.Success? && writeError.Some? ==>
                    saved.None? && artifacts.files == old(artifacts.files))
              && (old(history) != [] && reply.Success? && writeError.None? ==>
                    saved.Some?
                    && Artifacts.IsFirstFree(Artifacts.NamesOf(old(artifacts.files)),
                                             Artifacts.SafeName(reply.value.content, PrintTitle(old(State()))), saved.value)
                    && artifacts.files == old(artifacts.files) + [Artifacts.ArtifactFile(saved.value, reply.value.content, now)])
    {
      saved := None;
      if history == [] {
        SpeakText(NOTHING_TO_PRINT);
        return;
      }
      var original := history;
      var reply := Provider.GenerateResponse(PRINT_PROMPT, ContextOf(State()), backend);
      history := original;
      if reply.Failure? {
        SetClipboardContent(PRINT_ERROR);
        SpeakText(PRINT_ERROR);
        return;
      }
      var clip := GetClipboardContent();
      StripIdempotent(clipboard);
      clip := Strip(clip);
      var name := ChooseTitle(clip, title);
      var result := artifacts.SaveArtifact(reply.value.content, name, now, writeError);
      var msg := PRINT_NOT_SAVED;
      if result.Success? {
        saved := Some(result.value);
        msg := PRINT_SAVED + result.value;
      }
      SetClipboardContent(reply.value.content);
      SpeakText(msg + "... " + reply.value.content);
    }

    /** prepare_whatsapp_message */
    method PrepareWhatsAppMessage(backend: Provider.Backend)
      requires Valid()
      modifies this
      ensures Valid()
      ensures State() == PrepareWhatsApp(old(State()), Provider.Respond(WHATSAPP_PROMPT, ContextOf(old(State())), backend))
    {
      if history == [] {
        SpeakText(NOTHING_TO_SEND);
        return;
      }
      var original := history;
      var reply := Provider.GenerateResponse(WHATSAPP_PROMPT, ContextOf(State()), backend);
      history := original;
      if reply.Failure? {
        SpeakText(WHATSAPP_ERROR);
        SetClipboardContent(WHATSAPP_ERROR);
        return;
      }
      SpeakText(WHATSAPP_INTRO + reply.value.content);
      SetClipboardContent(reply.value.content);
    }

    /** list_artifact */
    method ListArtifact(fmt: int -> string)
      requires Valid()
      modifies this
      ensures Valid()
      ensures State() == AppState.ListArtifact(old(State()), artifacts.files, fmt)
    {
      var text := artifacts.FormatArtifactList(fmt);
      SpeakText(text);
    }

    /** read_artifact */
    method ReadArtifact()
      requires Valid()
      modifies this
      ensures Valid()
      ensures State() == AppState.ReadArtifact(old(State()), artifacts.files)
    {
      var numberText := GetClipboardContent();
      var number := ParseInt(numberText);
      if number.None? {
        SpeakText(ASK_READ_ARTIFACT);
        return;
      }
      var r := artifacts.GetArtifactByNumber(number.value);
      if r.Failure? {
        SpeakText(r.error);
        return;
      }
      var (filename, content) := r.value;
      SetClipboardContent(content);
      SpeakText(content);
      SpeakText(filename + "... " + content);
    }

    /** delete_artifact */
    method DeleteArtifact(unlinkFails: bool)
      requires Valid()
      modifies this, artifacts
      ensures Valid()
      ensures (State(), artifacts.files) == AppState.DeleteArtifact(old(State()), old(artifacts.files), unlinkFails)
    {
      var number := ParseInt(Strip(clipboard));
      if number.None? {
        SpeakText(ASK_DELETE_ARTIFACT);
        return;
      }
      var r := artifacts.GetArtifactByNumber(number.value);
      if r.Failure? {
        SpeakText(r.error);
        return;
      }
      var filename := r.value.0;
      var ok := artifacts.DeleteArtifact(filename, unlinkFails);
      if ok {
        SpeakText("Artefatto " + filename + " cancellato con successo");
      } else {
        SpeakText(NOT_DELETED_ARTIFACT);
      }
    }

    /** save_current_chat */
    method SaveCurrentChat(now: int, writeError: Option<string>)
      requires Valid()
      modifies this, chats
      ensures Valid()
      ensures (State(), chats.entries) == AppState.SaveCurrentChat(old(State()), old(chats.entries), now, writeError)
    {
      if history == [] {
        SpeakText(NOTHING_TO_SAVE);
        return;
      }
      var clip := GetClipboardContent();
      StripIdempotent(clipboard);
      clip := Strip(clip);
      var t := ChooseTitle(clip, title);
      var r := chats.SaveChat(mode, history, t, now, writeError);
      if r.Failure? {
        SpeakText(SAVE_CHAT_ERROR);
        return;
      }
      SpeakText("Ho salvato la sessione di " + Chats.StyleName(mode) + " come " + PathStem(r.value));
    }

    /** list_saved_chats */
    method ListSavedChats(fmt: int -> string)
      requires Valid()
      modifies this
      ensures Valid()
      ensures State() == AppState.ListSavedChats(old(State()), chats.entries, fmt)
    {
      var text := chats.FormatChatsList(None, fmt);
      SpeakText(text);
    }

    /** read_saved_chat */
    method ReadSavedChat()
      requires Valid()
      modifies this
      ensures Valid()
      ensures State() == AppState.ReadSavedChat(old(State()), chats.entries)
    {
      var number := ParseInt(Strip(clipboard));
      if number.None? {
        SpeakText(ASK_READ_CHAT);
        return;
      }
      var r := chats.GetChatByNumber(number.value, false);
      if r.Failure? {
        SpeakText(if r.error == Chats.MISSING_HISTORY then READ_CHAT_ERROR else r.error);
        return;
      }
      var last := FindLastReply(r.value.history);
      if last.Failure? {
        SpeakText(READ_CHAT_ERROR);
      } else if last.value.Some? && Truthy(last.value.value) {
        SpeakText("Chat " + BeforeLastDot(r.value.name) + " di tipo " + Chats.StyleName(r.value.style)
                  + ". Ultima risposta: " + Show(last.value.value));
      } else {
        SpeakText(NO_ASSISTANT);
      }
    }

    /** delete_chat */
    method DeleteChat(unlinkFails: bool)
      requires Valid()
      modifies this, chats
      ensures Valid()
      ensures (State(), chats.entries) == AppState.DeleteChat(old(State()), old(chats.entries), unlinkFails)
    {
      var number := ParseInt(Strip(clipboard));
      if number.None? {
        SpeakText(ASK_DELETE_CHAT);
        return;
      }
      DeleteChatNumber(number.value, unlinkFails);
    }

    /** delete_chat once the clipboard holds a number. */
    method DeleteChatNumber(number: int, unlinkFails: bool)
      requires Valid()
      modifies this, chats
      ensures Valid()
      ensures (State(), chats.entries) == AppState.DeleteChatNumber(old(State()), old(chats.entries), number, unlinkFails)
    {
      var r := chats.DeleteChatByNumber(number, unlinkFails);
      if r.Failure? {
        SpeakText(r.error);
        return;
      }
      var (success, filename) := r.value;
      if success {
        SpeakText("Ho eliminato la chat " + BeforeLastDot(filename));
      } else {
        SpeakText(NOT_DELETED_CHAT);
      }
    }
  }
}
