// utils/local_tts_provider.py: LocalTTSProvider, speech rendered by a local engine to a wav
// file, with direct speech as a fallback and a bounded number of attempts to load the file.
// Whether the engine finished its start-up (a background thread in the source) is a field set
// at construction; rendering and the mixer are opaque and their outcomes are arguments.
module LocalTtsProvider {
  import opened Wrappers
  import opened Text
  import opened Playback

  /** What rendering to a file gives: a non-empty file, an empty file, or nothing. */
  datatype Rendering = Written | WrittenEmpty | NotWritten

  /** How the text reached the speaker, if it did. */
  datatype Voice = FromFile | Direct | Silent

  const MAX_RETRIES := 3

  /** int(x) of a count of milliseconds as whole seconds: truncation toward zero. */
  function Seconds(ms: int): int {
    if ms >= 0 then ms / 1000 else -((-ms) / 1000)
  }

  /** The file _generate_speech_file writes: speech_<id of the text>_<seconds>.wav. */
  function SpeechFile(id: nat, now: int): string {
    PREFIX + IntToString(id) + "_" + IntToString(Seconds(now)) + WAV
  }

  /** The loop of speak that loads and plays the file: failures is how many attempts in a
      row the mixer refuses. */
  method LoadWithRetry(failures: nat) returns (played: bool, attempts: nat)
    ensures played <==> failures < MAX_RETRIES
    ensures attempts == if played then failures + 1 else MAX_RETRIES
    ensures 1 <= attempts <= MAX_RETRIES
  {
    played := false;
    attempts := 0;
    var attempt := 0;
    while attempt < MAX_RETRIES
      invariant 0 <= attempt <= MAX_RETRIES
      invariant attempt <= failures
      invariant attempts == attempt && !played
    {
      attempts := attempts + 1;
      if attempt >= failures {
        played := true;
        break;
      }
      attempt := attempt + 1;
    }
  }

  /** speak. A muted provider only remembers the text. Without a started engine no file is
      made and the fallback is skipped, so the loads of the missing file all fail. A file
      that is not made (or is empty) turns into direct speech, which may itself fail. A file
      the mixer keeps refusing is left on disk untracked. */
  function Spoken(s: Player, text: string, id: nat, now: int, stopFails: bool, initialized: bool,
                  rendering: Rendering, fallbackFails: bool, loadFailures: nat, locked: set<string>): (r: (Player, Voice))
    ensures r.0.lastText == Some(text) && r.0.muted == s.muted
    ensures s.muted ==> r == (s.(lastText := Some(text)), Silent)
    ensures !initialized ==> r.1 == Silent
    ensures r.1 == FromFile <==> !s.muted && initialized && rendering == Written && loadFailures < MAX_RETRIES
  {
    var s1 := s.(lastText := Some(text));
    if s1.muted then (s1, Silent)
    else
      var s2 := StopPlayback(s1, now, stopFails);
      var file := SpeechFile(id, now);
      if !initialized then (s2, Silent)
      else if rendering != Written then
        (if rendering == WrittenEmpty then s2.(dir := s2.dir + {file}) else s2,
         if fallbackFails then Silent else Direct)
      else if loadFailures >= MAX_RETRIES then (s2.(dir := s2.dir + {file}), Silent)
      else (Swept(Playing(s2, file, now), now, locked, WAV), FromFile)
  }

  /** unmute */
  function Unmuted(s: Player, id: nat, now: int, stopFails: bool, initialized: bool, rendering: Rendering,
                   fallbackFails: bool, loadFailures: nat, locked: set<string>): (Player, Voice)
  {
    if !s.muted then (s, Silent)
    else
      var s1 := s.(muted := false);
      if s1.lastText.Some? && s1.lastText.value != ""
      then Spoken(s1, s1.lastText.value, id, now, stopFails, initialized, rendering, fallbackFails, loadFailures, locked)
      else (s1, Silent)
  }

  /** shutdown: sweep, then forget the current file and clear both flags. */
  function ShutDown(s: Player, now: int, locked: set<string>): Player {
    Swept(s, now, locked, WAV).(current := None, playing := false, paused := false)
  }

  /** The text plays from a file exactly when the provider is unmuted, the engine is up, the
      file is written and the mixer accepts it within three attempts; then that file is the
      current one. Otherwise the current file stays what it was. */
  lemma SpeakFromFileExactly(s: Player, text: string, id: nat, now: int, stopFails: bool, initialized: bool,
                             rendering: Rendering, fallbackFails: bool, loadFailures: nat, locked: set<string>)
    requires Valid(s)
    ensures var r := Spoken(s, text, id, now, stopFails, initialized, rendering, fallbackFails, loadFailures, locked);
            (r.1 == FromFile <==> !s.muted && initialized && rendering == Written && loadFailures < MAX_RETRIES)
            && (r.1 == FromFile ==> r.0.playing && r.0.current == Some(SpeechFile(id, now)) && SpeechFile(id, now) in r.0.dir)
            && (r.1 != FromFile ==> r.0.current == s.current)
            && (r.1 == Direct <==> !s.muted && initialized && rendering != Written && !fallbackFails)
            && r.0.lastText == Some(text)
  {
    var s2 := StopPlayback(s.(lastText := Some(text)), now, stopFails);
    SweptKeepsCurrent(Playing(s2, SpeechFile(id, now), now), now, locked, WAV);
  }

  /** speak keeps the provider state valid. */
  lemma SpeakKeepsValid(s: Player, text: string, id: nat, now: int, stopFails: bool, initialized: bool,
                        rendering: Rendering, fallbackFails: bool, loadFailures: nat, locked: set<string>)
    requires Valid(s)
    ensures Valid(Spoken(s, text, id, now, stopFails, initialized, rendering, fallbackFails, loadFailures, locked).0)
  {
    var s1 := s.(lastText := Some(text));
    var s2 := StopPlayback(s1, now, stopFails);
    TransitionsKeepValid(s1, now, stopFails, locked, WAV, SpeechFile(id, now));
    SweptKeepsCurrent(Playing(s2, SpeechFile(id, now), now), now, locked, WAV);
  }

  /** After shutdown nothing plays and no file is current; mute and the last text survive,
      and the state is valid whatever it was. */
  lemma ShutdownResets(s: Player, now: int, locked: set<string>)
    ensures var r := ShutDown(s, now, locked);
            !r.playing && !r.paused && r.current.None? && r.muted == s.muted && r.lastText == s.lastText
            && Valid(r)
  {
  }

  class LocalTTSProvider {
    var playing: bool
    var paused: bool
    var muted: bool
    var current: Option<string>
    var lastText: Option<string>
    var active: map<string, int>
    var dir: set<string>
    /** Whether the engine's start-up succeeded. */
    const initialized: bool

    function State(): Player
      reads this
    {
      Player(playing, paused, muted, current, lastText, active, dir)
    }

    predicate Valid()
      reads this
    {
      Playback.Valid(State())
    }

    method Assign(p: Player)
      modifies this
      ensures State() == p
    {
      playing, paused, muted := p.playing, p.paused, p.muted;
      current, lastText, active, dir := p.current, p.lastText, p.active, p.dir;
    }

    /** The temporary directory holds existing; engineReady is the outcome of the engine's
        start-up; the start-up cleanup runs at once. */
    constructor(existing: set<string>, engineReady: bool, now: int, locked: set<string>)
      ensures Valid() && initialized == engineReady
      ensures State() == Swept(Fresh(existing), now, locked, WAV)
    {
      initialized := engineReady;
      var p := Sweep(Fresh(existing), now, locked, WAV);
      SweptKeepsCurrent(Fresh(existing), now, locked, WAV);
      playing, paused, muted := p.playing, p.paused, p.muted;
      current, lastText, active, dir := p.current, p.lastText, p.active, p.dir;
    }

    /** _cleanup_old_files */
    method CleanupOldFiles(now: int, locked: set<string>)
      modifies this
      ensures State() == Swept(old(State()), now, locked, WAV)
    {
      var p := Sweep(State(), now, locked, WAV);
      Assign(p);
    }

    /** _stop_playback */
    method StopPlayback(now: int, fails: bool)
      modifies this
      ensures State() == Playback.StopPlayback(old(State()), now, fails)
    {
      if playing && !fails {
        playing := false;
        paused := false;
        if current.Some? {
          active := active[current.value := now];
        }
      }
    }

    /** _generate_speech_file: the file made, if the engine is up and the file is non-empty. */
    method GenerateSpeechFile(id: nat, now: int, rendering: Rendering) returns (file: Option<string>)
      modifies this
      ensures file.Some? <==> initialized && rendering == Written
      ensures file.Some? ==> file.value == SpeechFile(id, now)
      ensures State() == if initialized && rendering != NotWritten
                         then old(State()).(dir := old(dir) + {SpeechFile(id, now)}) else old(State())
    {
      if !initialized {
        return None;
      }
      var name := SpeechFile(id, now);
      if rendering == NotWritten {
        return None;
      }
      dir := dir + {name};
      if rendering == WrittenEmpty {
        return None;
      }
      file := Some(name);
    }

    /** speak: returns how the text reached the speaker. */
    method Speak(text: string, id: nat, now: int, stopFails: bool, rendering: Rendering, fallbackFails: bool,
                 loadFailures: nat, locked: set<string>) returns (voice: Voice)
      requires Valid()
      modifies this
      ensures Valid()
      ensures (State(), voice)
              == Spoken(old(State()), text, id, now, stopFails, initialized, rendering, fallbackFails, loadFailures, locked)
    {
      SpeakKeepsValid(State(), text, id, now, stopFails, initialized, rendering, fallbackFails, loadFailures, locked);
      lastText := Some(text);
      if muted {
        return Silent;
      }
      StopPlayback(now, stopFails);
      var file := GenerateSpeechFile(id, now, rendering);
      if file.None? {
        if initialized {
          return if fallbackFails then Silent else Direct;
        }
        // the fallback is skipped; the loads of the missing file all fail
        return Silent;
      }
      var played, attempts := LoadWithRetry(loadFailures);
      if !played {
        return Silent;
      }
      if current.Some? {
        active := active[current.value := now];
      }
      current := file;
      active := active[file.value := now];
      playing := true;
      paused := false;
      CleanupOldFiles(now, locked);
      voice := FromFile;
    }

    /** stop */
    method Stop(now: int, stopFails: bool, locked: set<string>)
      requires Valid()
      modifies this
      ensures Valid()
      ensures State() == Playback.Stop(old(State()), now, stopFails, locked, WAV)
    {
      TransitionsKeepValid(State(), now, stopFails, locked, WAV, "");
      StopPlayback(now, stopFails);
      CleanupOldFiles(now, locked);
    }

    /** pause */
    method Pause(fails: bool)
      requires Valid()
      modifies this
      ensures Valid()
      ensures State() == Playback.Pause(old(State()), fails)
    {
      if playing && !paused && !muted && !fails {
        paused := true;
      }
    }

    /** resume */
    method Resume(fails: bool)
      requires Valid()
      modifies this
      ensures Valid()
      ensures State() == Playback.Resume(old(State()), fails)
    {
      if muted {
        return;
      }
      if playing && paused && !fails {
        paused := false;
      }
    }

    /** restart */
    method Restart(fails: bool)
      requires Valid()
      modifies this
      ensures Valid()
      ensures State() == Playback.Restart(old(State()), fails)
    {
      if muted {
        return;
      }
      if current.Some? && current.value in dir && !fails {
        playing := true;
        paused := false;
      }
    }

    /** mute */
    method Mute(now: int, stopFails: bool)
      requires Valid()
      modifies this
      ensures Valid()
      ensures State() == Playback.Mute(old(State()), now, stopFails)
    {
      if !muted {
        StopPlayback(now, stopFails);
        muted := true;
      }
    }

    /** unmute */
    method Unmute(id: nat, now: int, stopFails: bool, rendering: Rendering, fallbackFails: bool,
                  loadFailures: nat, locked: set<string>) returns (voice: Voice)
      requires Valid()
      modifies this
      ensures Valid()
      ensures (State(), voice)
              == Unmuted(old(State()), id, now, stopFails, initialized, rendering, fallbackFails, loadFailures, locked)
    {
      voice := Silent;
      if muted {
        muted := false;
        if lastText.Some? && lastText.value != "" {
          voice := Speak(lastText.value, id, now, stopFails, rendering, fallbackFails, loadFailures, locked);
        }
      }
    }

    /** shutdown */
    method Shutdown(now: int, locked: set<string>)
      modifies this
      ensures Valid()
      ensures State() == ShutDown(old(State()), now, locked)
    {
      CleanupOldFiles(now, locked);
      current := None;
      playing := false;
      paused := false;
    }
  }
}
