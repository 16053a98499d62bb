// core/trigger_processor.py: the loop that watches the marker files other programs create
// and runs, each cycle, the handler of the first marker present in a fixed order.
module Trigger {
  import opened Wrappers
  import opened Json
  import opened Base
  import Settings
  import Provider
  import Artifacts
  import Chats
  import opened AppState
  import App
  import UiApi
  import MainResume

  /** The marker files of trigger_files, one per command. */
  datatype Marker =
    | CleanHistoryMarker | ProcessMarker
    | ModeChat | ModeExplore | ModeTranslate | ModeWrite | ModeCreate
    | TtsPause | TtsResume | TtsStop | TtsRestart
    | RetryMarker
    | PrintArtifact | ListArtifact | ReadArtifact | ResumeCreativeArtifact | ResumeArticleArtifact | DeleteArtifact
    | SaveChat | ListChats | ReadChat | ResumeChat | DeleteChat
    | PrepareWhatsapp

  /** The order of the if/elif chain of run. */
  const PRIORITY: seq<Marker> := [
    CleanHistoryMarker, ProcessMarker,
    ModeChat, ModeExplore, ModeTranslate, ModeWrite, ModeCreate,
    TtsPause, TtsResume, TtsStop, TtsRestart,
    RetryMarker,
    PrintArtifact, ListArtifact, ReadArtifact, ResumeCreativeArtifact, ResumeArticleArtifact, DeleteArtifact,
    SaveChat, ListChats, ReadChat, ResumeChat, DeleteChat,
    PrepareWhatsapp]

  /** The file name of each marker in the communication directory. */
  function FileName(m: Marker): string {
    match m
    case CleanHistoryMarker => "clean_history"
    case ProcessMarker => "process_clipboard"
    case ModeChat => "mode_chat"
    case ModeExplore => "mode_explore"
    case ModeTranslate => "mode_translate"
    case ModeWrite => "mode_write"
    case ModeCreate => "mode_create"
    case TtsPause => "tts_pause"
    case TtsResume => "tts_resume"
    case TtsStop => "tts_stop"
    case TtsRestart => "tts_restart"
    case RetryMarker => "retry"
    case PrintArtifact => "print_artifact"
    case ListArtifact => "list_artifact"
    case ReadArtifact => "read_artifact"
    case ResumeCreativeArtifact => "resume_creative_artifact"
    case ResumeArticleArtifact => "resume_article_artifact"
    case DeleteArtifact => "delete_artifact"
    case SaveChat => "save_chat"
    case ListChats => "list_chats"
    case ReadChat => "read_chat"
    case ResumeChat => "resume_chat"
    case DeleteChat => "delete_chat"
    case PrepareWhatsapp => "prepare_whatsapp"
  }

  /** The place of a marker in the chain. */
  function Rank(m: Marker): (r: nat)
    ensures r < |PRIORITY| && PRIORITY[r] == m
  {
    match m
    case CleanHistoryMarker => 0
    case ProcessMarker => 1
    case ModeChat => 2
    case ModeExplore => 3
    case ModeTranslate => 4
    case ModeWrite => 5
    case ModeCreate => 6
    case TtsPause => 7
    case TtsResume => 8
    case TtsStop => 9
    case TtsRestart => 10
    case RetryMarker => 11
    case PrintArtifact => 12
    case ListArtifact => 13
    case ReadArtifact => 14
    case ResumeCreativeArtifact => 15
    case ResumeArticleArtifact => 16
    case DeleteArtifact => 17
    case SaveChat => 18
    case ListChats => 19
    case ReadChat => 20
    case ResumeChat => 21
    case DeleteChat => 22
    case PrepareWhatsapp => 23
  }

  /** The chain lists each of the 24 markers exactly once, each under its own file. */
  lemma PriorityListsEachOnce()
    ensures |PRIORITY| == 24
    ensures forall k :: 0 <= k < |PRIORITY| ==> Rank(PRIORITY[k]) == k
    ensures forall m: Marker :: m in PRIORITY
    ensures forall m: Marker, n: Marker :: FileName(m) == FileName(n) ==> m == n
  {
    forall m: Marker ensures m in PRIORITY {
      assert PRIORITY[Rank(m)] == m;
    }
  }

  /** The style each mode marker selects. */
  function ModeStyle(m: Marker): (r: Option<SessionStyle>)
    ensures r.Some? <==> m in {ModeChat, ModeExplore, ModeTranslate, ModeWrite, ModeCreate}
  {
    match m
    case ModeChat => Some(Chat)
    case ModeExplore => Some(Exploration)
    case ModeTranslate => Some(Translation)
    case ModeWrite => Some(ArticleWriting)
    case ModeCreate => Some(CreativeWriting)
    case _ => None
  }

  /** The first marker of order that is present. */
  function FirstIn(order: seq<Marker>, present: set<Marker>): (r: Option<Marker>)
    ensures r.None? <==> forall k :: 0 <= k < |order| ==> order[k] !in present
    ensures r.None? <==> forall m :: m in order ==> m !in present
    ensures r.Some? ==>
              exists k :: 0 <= k < |order| && order[k] == r.value && order[k] in present
                          && forall j :: 0 <= j < k ==> order[j] !in present
  {
    if order == [] then None
    else if order[0] in present then Some(order[0])
    else
      var r := FirstIn(order[1..], present);
      assert forall k :: 1 <= k < |order| ==> order[k] == order[1..][k - 1];
      if r.Some? then
        var k :| 0 <= k < |order[1..]| && order[1..][k] == r.value && order[1..][k] in present
                 && forall j :: 0 <= j < k ==> order[1..][j] !in present;
        assert order[k + 1] == r.value;
        r
      else r
  }

  /** The marker a cycle dispatches. */
  function FirstPresent(present: set<Marker>): Option<Marker> {
    FirstIn(PRIORITY, present)
  }

  /** A cycle dispatches a marker exactly when one is present; the one it dispatches is
      present and comes before every other present marker in the chain. */
  lemma FirstPresentIsFirst(present: set<Marker>)
    ensures FirstPresent(present).None? <==> present == {}
    ensures FirstPresent(present).Some? ==>
              FirstPresent(present).value in present
              && forall m :: m in present ==> Rank(FirstPresent(present).value) <= Rank(m)
  {
    PriorityListsEachOnce();
    var r := FirstPresent(present);
    if r.Some? {
      var k :| 0 <= k < |PRIORITY| && PRIORITY[k] == r.value && PRIORITY[k] in present
               && forall j :: 0 <= j < k ==> PRIORITY[j] !in present;
      assert Rank(r.value) == k;
      forall m | m in present ensures Rank(r.value) <= Rank(m) {
        assert PRIORITY[Rank(m)] == m;
      }
    }
  }

  /** Everything the handlers read from the outside world in one cycle: the AI backend, the
      clock, whether a write or an unlink fails, and the date formatting. */
  datatype Env = Env(backend: Provider.Backend, now: int, writeError: Option<string>, unlinkFails: bool,
                     fmt: int -> string)

  /** The application state the handlers change: the session and the two stores. */
  datatype World = World(session: Session, files: seq<Artifacts.ArtifactFile>, entries: seq<Chats.ChatEntry>)

  /** print_session_content over the session and the artifact store, given the name the
      artifact was saved under, if it was. */
  function PrintedWorld(w: World, env: Env, saved: Option<string>): World {
    var reply := Provider.Respond(PRINT_PROMPT, ContextOf(w.session), env.backend);
    var files := if saved.Some? && reply.Success?
                 then w.files + [Artifacts.ArtifactFile(saved.value, reply.value.content, env.now)]
                 else w.files;
    World(Printed(w.session, reply, saved), files, w.entries)
  }

  /** The name print_session_content saves under: none when there is nothing to print, the
      provider fails or the write fails; otherwise the first free name for the title. */
  ghost predicate PrintSaved(w: World, env: Env, saved: Option<string>) {
    var reply := Provider.Respond(PRINT_PROMPT, ContextOf(w.session), env.backend);
    if w.session.history == [] || reply.Failure? || env.writeError.Some? then saved.None?
    else saved.Some? && Artifacts.IsFirstFree(Artifacts.NamesOf(w.files),
                                              Artifacts.SafeName(reply.value.content, PrintTitle(w.session)), saved.value)
  }

  /** The handlers by what they touch: the conversation, the mode and speech controls, the
      artifact store and the chat store. */
  datatype Group = Conversation | Controls | ArtifactGroup | ChatGroup

  function GroupOf(m: Marker): Group {
    match m
    case CleanHistoryMarker | ProcessMarker | RetryMarker | PrepareWhatsapp => Conversation
    case ModeChat | ModeExplore | ModeTranslate | ModeWrite | ModeCreate
       | TtsPause | TtsResume | TtsStop | TtsRestart => Controls
    case PrintArtifact | ListArtifact | ReadArtifact | ResumeCreativeArtifact | ResumeArticleArtifact
       | DeleteArtifact => ArtifactGroup
    case SaveChat | ListChats | ReadChat | ResumeChat | DeleteChat => ChatGroup
  }

  function HandleConversation(w: World, m: Marker, env: Env): (r: World)
    requires GroupOf(m) == Conversation
    ensures r.files == w.files && r.entries == w.entries
  {
    var s := w.session;
    match m
    case CleanHistoryMarker => w.(session := AppState.CleanHistory(s))
    case ProcessMarker => w.(session := ProcessClipboard(s, env.backend))
    case RetryMarker => w.(session := RetryTranslation(s, env.backend))
    case PrepareWhatsapp => w.(session := PrepareWhatsApp(s, Provider.Respond(WHATSAPP_PROMPT, ContextOf(s), env.backend)))
  }

  function HandleControl(w: World, settings: Value, m: Marker): (r: World)
    requires Settings.ModelsTable(settings).Obj? && GroupOf(m) == Controls
    ensures r.files == w.files && r.entries == w.entries
  {
    var s := w.session;
    match m
    case ModeChat => w.(session := HandleMode(s, settings, Chat))
    case ModeExplore => w.(session := HandleMode(s, settings, Exploration))
    case ModeTranslate => w.(session := HandleMode(s, settings, Translation))
    case ModeWrite => w.(session := HandleMode(s, settings, ArticleWriting))
    case ModeCreate => w.(session := HandleMode(s, settings, CreativeWriting))
    case TtsPause => w.(session := Control(s, PauseCall))
    case TtsResume => w.(session := Control(s, ResumeCall))
    case TtsStop => w.(session := Control(s, StopCall))
    case TtsRestart => w.(session := Control(s, RestartCall))
  }

  function HandleArtifact(w: World, settings: Value, m: Marker, env: Env, saved: Option<string>): (r: World)
    requires Settings.ModelsTable(settings).Obj? && GroupOf(m) == ArtifactGroup
    ensures r.entries == w.entries
  {
    var s := w.session;
    match m
    case PrintArtifact => PrintedWorld(w, env, saved)
    case ListArtifact => w.(session := AppState.ListArtifact(s, w.files, env.fmt))
    case ReadArtifact => w.(session := AppState.ReadArtifact(s, w.files))
    case ResumeCreativeArtifact =>
      w.(session := MainResume.ResumeArtifactFromClipboard(s, settings, w.files, CreativeWriting, env.backend).0)
    case ResumeArticleArtifact =>
      w.(session := MainResume.ResumeArtifactFromClipboard(s, settings, w.files, ArticleWriting, env.backend).0)
    case DeleteArtifact =>
      var (s1, files) := AppState.DeleteArtifact(s, w.files, env.unlinkFails);
      w.(session := s1, files := files)
  }

  function HandleChat(w: World, settings: Value, m: Marker, env: Env): (r: World)
    requires Settings.ModelsTable(settings).Obj? && GroupOf(m) == ChatGroup
    ensures r.files == w.files
  {
    var s := w.session;
    match m
    case SaveChat =>
      var (s1, entries) := AppState.SaveCurrentChat(s, w.entries, env.now, env.writeError);
      w.(session := s1, entries := entries)
    case ListChats => w.(session := ListSavedChats(s, w.entries, env.fmt))
    case ReadChat => w.(session := ReadSavedChat(s, w.entries))
    case ResumeChat => w.(session := MainResume.ResumeChatFromClipboard(s, settings, w.entries).0)
    case DeleteChat =>
      var (s1, entries) := AppState.DeleteChat(s, w.entries, env.unlinkFails);
      w.(session := s1, entries := entries)
  }

  /** What the handler of a marker does. saved is the artifact name print_artifact chose. */
  function Handle(w: World, settings: Value, m: Marker, env: Env, saved: Option<string>): World
    requires Settings.ModelsTable(settings).Obj?
  {
    match GroupOf(m)
    case Conversation => HandleConversation(w, m, env)
    case Controls => HandleControl(w, settings, m)
    case ArtifactGroup => HandleArtifact(w, settings, m, env, saved)
    case ChatGroup => HandleChat(w, settings, m, env)
  }

  /** Only a handler of the artifact group changes the artifact store, only one of the chat
      group changes the chat store, and only print_artifact depends on a saved name. */
  lemma HandlersTouchTheirStore(w: World, settings: Value, m: Marker, env: Env, saved: Option<string>)
    requires Settings.ModelsTable(settings).Obj?
    ensures GroupOf(m) != ArtifactGroup ==> Handle(w, settings, m, env, saved).files == w.files
    ensures GroupOf(m) != ChatGroup ==> Handle(w, settings, m, env, saved).entries == w.entries
    ensures m != PrintArtifact ==> Handle(w, settings, m, env, saved) == Handle(w, settings, m, env, None)
  {
    match GroupOf(m)
    case Conversation =>
    case Controls =>
    case ArtifactGroup =>
      if m != PrintArtifact {
        assert HandleArtifact(w, settings, m, env, saved) == HandleArtifact(w, settings, m, env, None);
      }
    case ChatGroup =>
  }

  /** One cycle of run over the present markers: the first one's handler runs (unless it
      raises, which is caught) and that marker, and only that one, is deleted. The deletion
      in the finally clause ignores only a missing file: when it raises (stuck) the marker
      stays and its handler runs again on the next cycle. */
  function Cycle(w: World, present: set<Marker>, settings: Value, env: Env, raises: bool, stuck: bool,
                 saved: Option<string>)
    : (r: (World, set<Marker>))
    requires Settings.ModelsTable(settings).Obj?
    ensures present == {} ==> r == (w, present)
    ensures present != {} && !stuck ==> exists m :: m in present && r.1 == present - {m}
    ensures stuck ==> r.1 == present
    ensures raises ==> r.0 == w
  {
    FirstPresentIsFirst(present);
    match FirstPresent(present)
    case None => (w, present)
    case Some(m) => (if raises then w else Handle(w, settings, m, env, saved), if stuck then present else present - {m})
  }

  /** A cycle runs the handler of the first present marker and no other, deletes that marker
      whether or not the handler raised unless the deletion itself fails, and leaves every
      other marker for later cycles; a cycle with no marker changes nothing. */
  lemma CycleRunsFirstOnly(w: World, present: set<Marker>, settings: Value, env: Env, raises: bool,
                           stuck: bool, saved: Option<string>)
    requires Settings.ModelsTable(settings).Obj?
    ensures var (w1, left) := Cycle(w, present, settings, env, raises, stuck, saved);
            (present == {} ==> w1 == w && left == present)
            && (present != {} ==>
                  exists m :: m in present && (forall n :: n in present ==> Rank(m) <= Rank(n))
                              && left == (if stuck then present else present - {m})
                              && w1 == (if raises then w else Handle(w, settings, m, env, saved)))
  {
    FirstPresentIsFirst(present);
  }

  /** A marker whose deletion fails is found again by the next cycle, so its handler runs
      again (a stuck print_artifact saves a new copy every cycle). */
  lemma StuckMarkerRunsAgain(w: World, present: set<Marker>, settings: Value, env: Env, raises: bool,
                             saved: Option<string>)
    requires Settings.ModelsTable(settings).Obj?
    ensures FirstPresent(Cycle(w, present, settings, env, raises, true, saved).1) == FirstPresent(present)
  {
  }

  /** clean_history wins over every other marker; it empties the history and keeps the
      style, the title, the configuration and both stores. */
  lemma CleanHistoryFirst(w: World, present: set<Marker>, settings: Value, env: Env, saved: Option<string>)
    requires Settings.ModelsTable(settings).Obj?
    requires CleanHistoryMarker in present
    ensures var (w1, left) := Cycle(w, present, settings, env, false, false, saved);
            left == present - {CleanHistoryMarker}
            && w1 == w.(session := w.session.(history := []))
  {
    FirstPresentIsFirst(present);
    assert Rank(FirstPresent(present).value) == 0;
  }

  /** A mode marker switches to its style as handle_mode does, and touches neither store. */
  lemma ModeMarkerSelectsStyle(w: World, settings: Value, m: Marker, env: Env, saved: Option<string>)
    requires Settings.ModelsTable(settings).Obj?
    requires ModeStyle(m).Some?
    ensures var w1 := Handle(w, settings, m, env, saved);
            w1.session.mode == ModeStyle(m).value && w1.files == w.files && w1.entries == w.entries
            && w1.session == HandleMode(w.session, settings, ModeStyle(m).value)
  {
  }

  /** One input to a cycle: markers created since the last one, a new clipboard text if the
      user copied something, the world's answers, whether the handler raises, whether the
      marker cannot be deleted, and whether stop is called during the cycle. */
  datatype CycleInput = CycleInput(arrivals: set<Marker>, paste: Option<string>, env: Env, raises: bool,
                                   stuck: bool, stop: bool)

  class TriggerProcessor {
    var running: bool
    var markers: set<Marker>
    const app: App.NAIADApplication
    const api: UiApi.Api

    function Current(): World
      reads app, app.artifacts, app.chats
    {
      World(app.State(), app.artifacts.files, app.chats.entries)
    }

    predicate Valid()
      reads this, app, app.artifacts, app.chats
    {
      app.Valid() && api.app == app
    }

    /** __init__: the processor starts running, with the markers already in the directory. */
    constructor(app: App.NAIADApplication, api: UiApi.Api, present: set<Marker>)
      requires app.Valid() && api.app == app
      ensures Valid() && running && markers == present
      ensures this.app == app && this.api == api
    {
      this.app := app;
      this.api := api;
      running := true;
      markers := present;
    }

    /** stop */
    method Stop()
      modifies this
      ensures !running && markers == old(markers)
    {
      running := false;
    }

    /** The chain of exists() tests: the first present marker, if any. */
    method FindMarker(present: set<Marker>) returns (r: Option<Marker>)
      ensures r == FirstPresent(present)
    {
      var i := 0;
      while i < |PRIORITY| && PRIORITY[i] !in present
        invariant 0 <= i <= |PRIORITY|
        invariant FirstIn(PRIORITY, present) == FirstIn(PRIORITY[i..], present)
      {
        assert PRIORITY[i..][1..] == PRIORITY[i + 1..];
        i := i + 1;
      }
      if i == |PRIORITY| {
        r := None;
      } else {
        r := Some(PRIORITY[i]);
      }
    }

    /** Runs the handler of one marker. */
    method Dispatch(m: Marker, env: Env) returns (saved: Option<string>)
      requires Valid()
      modifies app, app.artifacts, app.chats
      ensures Valid()
      ensures Current() == Handle(old(Current()), app.settings, m, env, saved)
      ensures m == PrintArtifact ==> PrintSaved(old(Current()), env, saved)
    {
      saved := None;
      match GroupOf(m) {
        case Conversation => DispatchSession(m, env);
        case Controls => DispatchControl(m, env);
        case ArtifactGroup => saved := DispatchArtifact(m, env);
        case ChatGroup => DispatchChat(m, env);
      }
    }

    /** The handlers that ask the provider or clear the conversation. */
    method DispatchSession(m: Marker, env: Env)
      requires Valid() && GroupOf(m) == Conversation
      modifies app
      ensures Valid()
      ensures Current() == HandleConversation(old(Current()), m, env)
    {
      match m {
        case CleanHistoryMarker => app.CleanHistory();
        case ProcessMarker => app.ProcessClipboard(env.backend);
        case RetryMarker => app.RetryTranslation(env.backend);
        case PrepareWhatsapp => app.PrepareWhatsAppMessage(env.backend);
      }
    }

    /** The mode and speech-control handlers. */
    method DispatchControl(m: Marker, env: Env)
      requires Valid() && GroupOf(m) == Controls
      modifies app
      ensures Valid()
      ensures Current() == HandleControl(old(Current()), app.settings, m)
    {
      match m {
        case ModeChat => app.HandleMode(Chat);
        case ModeExplore => app.HandleMode(Exploration);
        case ModeTranslate => app.HandleMode(Translation);
        case ModeWrite => app.HandleMode(ArticleWriting);
        case ModeCreate => app.HandleMode(CreativeWriting);
        case TtsPause => app.SpeechControl(PauseCall);
        case TtsResume => app.SpeechControl(ResumeCall);
        case TtsStop => app.SpeechControl(StopCall);
        case TtsRestart => app.SpeechControl(RestartCall);
      }
    }

    /** The artifact handlers. */
    method DispatchArtifact(m: Marker, env: Env) returns (saved: Option<string>)
      requires Valid() && GroupOf(m) == ArtifactGroup
      modifies app, app.artifacts
      ensures Valid()
      ensures Current() == HandleArtifact(old(Current()), app.settings, m, env, saved)
      ensures m == PrintArtifact ==> PrintSaved(old(Current()), env, saved)
    {
      saved := None;
      match m {
        case PrintArtifact => saved := app.PrintSessionContent(env.backend, env.now, env.writeError);
        case ListArtifact => app.ListArtifact(env.fmt);
        case ReadArtifact => app.ReadArtifact();
        case ResumeCreativeArtifact => var _ := MainResume.ResumeCreativeArtifact(app, api, env.backend);
        case ResumeArticleArtifact => var _ := MainResume.ResumeArticleArtifact(app, api, env.backend);
        case DeleteArtifact => app.DeleteArtifact(env.unlinkFails);
      }
    }

    /** The chat handlers. */
    method DispatchChat(m: Marker, env: Env)
      requires Valid() && GroupOf(m) == ChatGroup
      modifies app, app.chats
      ensures Valid()
      ensures Current() == HandleChat(old(Current()), app.settings, m, env)
    {
      match m {
        case SaveChat => app.SaveCurrentChat(env.now, env.writeError);
        case ListChats => app.ListSavedChats(env.fmt);
        case ReadChat => app.ReadSavedChat();
        case ResumeChat => var _ := MainResume.ResumeSavedChat(app, api);
        case DeleteChat => app.DeleteChat(env.unlinkFails);
      }
    }

    /** One pass of the body of run: find the first marker, run its handler and delete the
        marker in the finally clause, unless that deletion raises. A handler that raises is
        modelled as raising before it changes anything. */
    method Step(env: Env, raises: bool, stuck: bool) returns (dispatched: Option<Marker>, saved: Option<string>)
      requires Valid()
      modifies this, app, app.artifacts, app.chats
      ensures Valid() && running == old(running)
      ensures dispatched == FirstPresent(old(markers))
      ensures (Current(), markers) == Cycle(old(Current()), old(markers), app.settings, env, raises, stuck, saved)
      ensures dispatched == Some(PrintArtifact) && !raises ==> PrintSaved(old(Current()), env, saved)
    {
      saved := None;
      dispatched := FindMarker(markers);
      if dispatched.None? {
        return;
      }
      var m := dispatched.value;
      if !raises {
        saved := Dispatch(m, env);
      }
      if !stuck {
        markers := markers - {m};
      }
    }

    /** run: cycles while running. Between cycles other programs create markers and the
        user may copy text; stop may be called at any cycle. Returns how many cycles ran. */
    method Run(inputs: seq<CycleInput>) returns (cycles: nat)
      requires Valid()
      modifies this, app, app.artifacts, app.chats
      ensures Valid()
      ensures cycles <= |inputs|
      ensures !old(running) ==> cycles == 0 && markers == old(markers) && Current() == old(Current())
      ensures running ==> cycles == |inputs|
      ensures cycles < |inputs| ==> !running
      ensures old(running) && !running ==> 0 < cycles && inputs[cycles - 1].stop
                                           && forall k :: 0 <= k < cycles - 1 ==> !inputs[k].stop
    {
      cycles := 0;
      if !running {
        return;
      }
      while running && cycles < |inputs|
        invariant Valid()
        invariant cycles <= |inputs|
        invariant !running ==> 0 < cycles && inputs[cycles - 1].stop
        invariant forall k :: 0 <= k < cycles - 1 ==> !inputs[k].stop
        invariant running ==> forall k :: 0 <= k < cycles ==> !inputs[k].stop
        decreases |inputs| - cycles
      {
        var input := inputs[cycles];
        markers := markers + input.arrivals;
        if input.paste.Some? {
          app.PasteFromOutside(input.paste.value);
        }
        var _, _ := Step(input.env, input.raises, input.stuck);
        if input.stop {
          Stop();
        }
        cycles := cycles + 1;
      }
    }
  }
}
