// core/main.py: resume_creative_artifact, resume_article_artifact and resume_saved_chat, the
// trigger handlers that read a number from the clipboard and hand it to the Api.
module MainResume {
  import opened Wrappers
  import opened Text
  import opened Json
  import opened Base
  import Settings
  import Artifacts
  import Chats
  import Provider
  import opened AppState
  import App
  import UiApi

  const ASK_RESUME_ARTIFACT := "Per favore, specifica il numero dell'artefatto da modificare"
  const ASK_RESUME_CHAT := "Per favore, specifica il numero della chat da riprendere"

  /** resume_creative_artifact (target CreativeWriting) and resume_article_artifact (target
      ArticleWriting): the session afterwards and the Api's answer, if the Api was called. */
  function ResumeArtifactFromClipboard(s: Session, settings: Value, files: seq<Artifacts.ArtifactFile>,
                                       target: SessionStyle, backend: Provider.Backend)
    : (r: (Session, Option<UiApi.ApiResult>))
    requires Settings.ModelsTable(settings).Obj?
  {
    match ParseInt(ReadClipboard(s))
    case None => (Speak(s, ASK_RESUME_ARTIFACT), None)
    case Some(n) =>
      var (s1, answer) := UiApi.ResumedArtifact(s, settings, files, n, target, backend);
      (s1, Some(answer))
  }

  /** resume_saved_chat */
  function ResumeChatFromClipboard(s: Session, settings: Value, entries: seq<Chats.ChatEntry>)
    : (r: (Session, Option<UiApi.ApiResult>))
    requires Settings.ModelsTable(settings).Obj?
  {
    match ParseInt(ReadClipboard(s))
    case None => (Speak(s, ASK_RESUME_CHAT), None)
    case Some(n) =>
      var (s1, answer) := UiApi.ResumedChat(s, settings, entries, n);
      (s1, Some(answer))
  }

  /** A clipboard that is not a number only makes the resume handlers ask for one: the
      conversation, its style and the stores are untouched and the Api is not called. */
  lemma NonNumberOnlyAsks(s: Session, settings: Value, files: seq<Artifacts.ArtifactFile>,
                          entries: seq<Chats.ChatEntry>, target: SessionStyle, backend: Provider.Backend)
    requires Settings.ModelsTable(settings).Obj?
    requires ParseInt(ReadClipboard(s)).None?
    ensures ResumeArtifactFromClipboard(s, settings, files, target, backend) == (Speak(s, ASK_RESUME_ARTIFACT), None)
    ensures ResumeChatFromClipboard(s, settings, entries) == (Speak(s, ASK_RESUME_CHAT), None)
  {
  }

  /** A clipboard holding the decimal form of a number, with any surrounding whitespace,
      resumes the artifact or chat of that number. */
  lemma NumberIsResumed(s: Session, settings: Value, files: seq<Artifacts.ArtifactFile>,
                        entries: seq<Chats.ChatEntry>, target: SessionStyle, backend: Provider.Backend, n: int)
    requires Settings.ModelsTable(settings).Obj?
    requires ReadClipboard(s) == IntToString(n)
    ensures var (s1, answer) := UiApi.ResumedArtifact(s, settings, files, n, target, backend);
            ResumeArtifactFromClipboard(s, settings, files, target, backend) == (s1, Some(answer))
    ensures var (s1, answer) := UiApi.ResumedChat(s, settings, entries, n);
            ResumeChatFromClipboard(s, settings, entries) == (s1, Some(answer))
  {
    ParseIntRoundTrip(n);
  }

  /** resume_creative_artifact */
  method ResumeCreativeArtifact(app: App.NAIADApplication, api: UiApi.Api, backend: Provider.Backend)
    returns (r: Option<UiApi.ApiResult>)
    requires api.app == app && app.Valid()
    modifies app
    ensures app.Valid()
    ensures (app.State(), r)
            == ResumeArtifactFromClipboard(old(app.State()), app.settings, app.artifacts.files, CreativeWriting, backend)
  {
    var text := app.GetClipboardContent();
    var number := ParseInt(text);
    if number.None? {
      app.SpeakText(ASK_RESUME_ARTIFACT);
      return None;
    }
    var answer := api.ResumeCreativeArtifact(number.value, backend);
    r := Some(answer);
  }

  /** resume_article_artifact */
  method ResumeArticleArtifact(app: App.NAIADApplication, api: UiApi.Api, backend: Provider.Backend)
    returns (r: Option<UiApi.ApiResult>)
    requires api.app == app && app.Valid()
    modifies app
    ensures app.Valid()
    ensures (app.State(), r)
            == ResumeArtifactFromClipboard(old(app.State()), app.settings, app.artifacts.files, ArticleWriting, backend)
  {
    var text := app.GetClipboardContent();
    var number := ParseInt(text);
    if number.None? {
      app.SpeakText(ASK_RESUME_ARTIFACT);
      return None;
    }
    var answer := api.ResumeArticleArtifact(number.value, backend);
    r := Some(answer);
  }

  /** resume_saved_chat */
  method ResumeSavedChat(app: App.NAIADApplication, api: UiApi.Api) returns (r: Option<UiApi.ApiResult>)
    requires api.app == app && app.Valid()
    modifies app
    ensures app.Valid()
    ensures (app.State(), r) == ResumeChatFromClipboard(old(app.State()), app.settings, app.chats.entries)
  {
    var text := app.GetClipboardContent();
    var number := ParseInt(text);
    if number.None? {
      app.SpeakText(ASK_RESUME_CHAT);
      return None;
    }
    var answer := api.ResumeChat(number.value);
    r := Some(answer);
  }
}
