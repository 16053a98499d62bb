// utils/tts_provider.py: GTTSProvider, speech synthesised to an mp3 file and played by the
// mixer. Synthesis and the mixer are opaque; the outcome of a synthesis is an argument.
module TtsProvider {
  import opened Wrappers
  import opened Text
  import opened Playback

  /** How far speak gets: the file is played, the synthesis fails before a file is written,
      or the file is written and the mixer cannot load or play it. */
  datatype Synthesis = Played | SaveFails | PlayFails

  /** The file speak writes: speech_<id of the text>.mp3. */
  function SpeechFile(id: nat): string {
    PREFIX + IntToString(id) + MP3
  }

  lemma SpeechFileIsTemp(id: nat)
    ensures IsTempName(SpeechFile(id), MP3)
  {
    var f := SpeechFile(id);
    assert f[..|PREFIX|] == PREFIX;
    assert f[|f| - |MP3|..] == MP3;
  }

  /** _safe_cleanup */
  function CleanedUp(s: Player, now: int, stopFails: bool, locked: set<string>): Player {
    Swept(StopPlayback(s, now, stopFails), now, locked, MP3)
  }

  /** speak: the new state and whether the call raised. The text is always remembered; a
      muted provider does nothing else; a failed synthesis cleans up and raises again. */
  function Spoken(s: Player, text: string, id: nat, now: int, stopFails: bool, outcome: Synthesis,
                 locked: set<string>): (r: (Player, bool))
    ensures r.0.lastText == Some(text) && r.0.muted == s.muted
    ensures s.muted ==> r == (s.(lastText := Some(text)), false)
    ensures !s.muted ==> (r.1 <==> !outcome.Played?)
  {
    var s1 := s.(lastText := Some(text));
    if s1.muted then (s1, false)
    else
      var s2 := StopPlayback(s1, now, stopFails);
      match outcome
      case Played => (Swept(Playing(s2, SpeechFile(id), now), now, locked, MP3), false)
      case SaveFails => (CleanedUp(s2, now, stopFails, locked), true)
      case PlayFails => (CleanedUp(s2.(dir := s2.dir + {SpeechFile(id)}), now, stopFails, locked), true)
  }

  /** unmute: clear the flag and speak the remembered text again, if there is any. */
  function Unmuted(s: Player, id: nat, now: int, stopFails: bool, outcome: Synthesis, locked: set<string>): (Player, bool) {
    if !s.muted then (s, false)
    else
      var s1 := s.(muted := false);
      if s1.lastText.Some? && s1.lastText.value != "" then Spoken(s1, s1.lastText.value, id, now, stopFails, outcome, locked)
      else (s1, false)
  }

  /** speak keeps the provider state valid. */
  lemma SpeakKeepsValid(s: Player, text: string, id: nat, now: int, stopFails: bool, outcome: Synthesis,
                        locked: set<string>)
    requires Valid(s)
    ensures Valid(Spoken(s, text, id, now, stopFails, outcome, locked).0)
  {
    var s1 := s.(lastText := Some(text));
    var s2 := StopPlayback(s1, now, stopFails);
    TransitionsKeepValid(s1, now, stopFails, locked, MP3, SpeechFile(id));
    TransitionsKeepValid(s2, now, stopFails, locked, MP3, SpeechFile(id));
    SweptKeepsCurrent(Playing(s2, SpeechFile(id), now), now, locked, MP3);
    TransitionsKeepValid(s2.(dir := s2.dir + {SpeechFile(id)}), now, stopFails, locked, MP3, SpeechFile(id));
  }

  /** A muted provider only remembers the text. */
  lemma MutedSpeakOnlyRecords(s: Player, text: string, id: nat, now: int, stopFails: bool, outcome: Synthesis,
                              locked: set<string>)
    requires s.muted
    ensures Spoken(s, text, id, now, stopFails, outcome, locked) == (s.(lastText := Some(text)), false)
  {
  }

  /** A synthesis that succeeds leaves its file current, on disk and playing, and keeps the
      file it replaced: that one was stamped just now, so the sweep spares it. */
  lemma SpeakPlays(s: Player, text: string, id: nat, now: int, stopFails: bool, locked: set<string>)
    requires Valid(s) && !s.muted
    ensures var r := Spoken(s, text, id, now, stopFails, Played, locked);
            !r.1 && r.0.playing && !r.0.paused && r.0.current == Some(SpeechFile(id))
            && SpeechFile(id) in r.0.dir && r.0.lastText == Some(text)
            && (s.current.Some? ==> s.current.value in r.0.dir && s.current.value in r.0.active)
  {
    var s2 := StopPlayback(s.(lastText := Some(text)), now, stopFails);
    var p := Playing(s2, SpeechFile(id), now);
    SweptKeepsCurrent(p, now, locked, MP3);
    if s.current.Some? {
      var c := s.current.value;
      if c != SpeechFile(id) {
        assert p.active[c] == now;
        assert !DropsTracked(p, c, now, locked);
        assert c in AfterTracked(p, now, locked).active;
      }
    }
  }

  /** A file written but never played does not outlive the call, unless it is the current
      file or locked: the cleanup removes it as an orphan. */
  lemma UnplayedFileRemoved(s: Player, text: string, id: nat, now: int, stopFails: bool, locked: set<string>)
    requires Valid(s) && !s.muted
    requires Some(SpeechFile(id)) != s.current && SpeechFile(id) !in s.active && SpeechFile(id) !in locked
    ensures var r := Spoken(s, text, id, now, stopFails, PlayFails, locked);
            r.1 && SpeechFile(id) !in r.0.dir && r.0.current == s.current
  {
    SpeechFileIsTemp(id);
  }

  /** Muting and then unmuting replays the last text when the synthesis succeeds. */
  lemma MuteThenUnmuteReplays(s: Player, id: nat, now: int, stopFails: bool, locked: set<string>)
    requires Valid(s) && !s.muted && s.lastText.Some? && s.lastText.value != ""
    ensures var r := Unmuted(Mute(s, now, stopFails), id, now, stopFails, Played, locked);
            !r.1 && !r.0.muted && r.0.playing && r.0.current == Some(SpeechFile(id)) && r.0.lastText == s.lastText
  {
    var m := Mute(s, now, stopFails);
    TransitionsKeepValid(s, now, stopFails, locked, MP3, SpeechFile(id));
    SpeakPlays(m.(muted := false), s.lastText.value, id, now, stopFails, locked);
  }

  class GTTSProvider {
    var playing: bool
    var paused: bool
    var muted: bool
    var current: Option<string>
    var lastText: Option<string>
    var active: map<string, int>
    var dir: set<string>

    function State(): Player
      reads this
    {
      Player(playing, paused, muted, current, lastText, active, dir)
    }

    predicate Valid()
      reads this
    {
      Playback.Valid(State())
    }

    method Assign(p: Player)
      modifies this
      ensures State() == p
    {
      playing, paused, muted := p.playing, p.paused, p.muted;
      current, lastText, active, dir := p.current, p.lastText, p.active, p.dir;
    }

    /** The temporary directory holds existing; the start-up cleanup runs at once. */
    constructor(existing: set<string>, now: int, locked: set<string>)
      ensures Valid()
      ensures State() == Swept(Fresh(existing), now, locked, MP3)
    {
      var p := Sweep(Fresh(existing), now, locked, MP3);
      SweptKeepsCurrent(Fresh(existing), now, locked, MP3);
      playing, paused, muted := p.playing, p.paused, p.muted;
      current, lastText, active, dir := p.current, p.lastText, p.active, p.dir;
    }

    /** _cleanup_old_files */
    method CleanupOldFiles(now: int, locked: set<string>)
      modifies this
      ensures State() == Swept(old(State()), now, locked, MP3)
    {
      var p := Sweep(State(), now, locked, MP3);
      Assign(p);
    }

    /** _stop_playback */
    method StopPlayback(now: int, fails: bool)
      modifies this
      ensures State() == Playback.StopPlayback(old(State()), now, fails)
    {
      if playing && !fails {
        playing := false;
        paused := false;
        if current.Some? {
          active := active[current.value := now];
        }
      }
    }

    /** _safe_cleanup */
    method SafeCleanup(now: int, stopFails: bool, locked: set<string>)
      modifies this
      ensures State() == CleanedUp(old(State()), now, stopFails, locked)
    {
      StopPlayback(now, stopFails);
      CleanupOldFiles(now, locked);
    }

    /** speak: returns whether the call raised. */
    method Speak(text: string, id: nat, now: int, stopFails: bool, outcome: Synthesis, locked: set<string>)
      returns (raised: bool)
      requires Valid()
      modifies this
      ensures Valid()
      ensures (State(), raised) == Spoken(old(State()), text, id, now, stopFails, outcome, locked)
    {
      SpeakKeepsValid(State(), text, id, now, stopFails, outcome, locked);
      lastText := Some(text);
      if muted {
        return false;
      }
      StopPlayback(now, stopFails);
      var file := SpeechFile(id);
      if outcome == SaveFails {
        SafeCleanup(now, stopFails, locked);
        return true;
      }
      dir := dir + {file};
      if outcome == PlayFails {
        SafeCleanup(now, stopFails, locked);
        return true;
      }
      if current.Some? {
        active := active[current.value := now];
      }
      current := Some(file);
      active := active[file := now];
      playing := true;
      paused := false;
      CleanupOldFiles(now, locked);
      raised := false;
    }

    /** stop */
    method Stop(now: int, stopFails: bool, locked: set<string>)
      requires Valid()
      modifies this
      ensures Valid()
      ensures State() == Playback.Stop(old(State()), now, stopFails, locked, MP3)
    {
      TransitionsKeepValid(State(), now, stopFails, locked, MP3, "");
      StopPlayback(now, stopFails);
      CleanupOldFiles(now, locked);
    }

    /** pause */
    method Pause(fails: bool)
      requires Valid()
      modifies this
      ensures Valid()
      ensures State() == Playback.Pause(old(State()), fails)
    {
      if playing && !paused && !muted && !fails {
        paused := true;
      }
    }

    /** resume */
    method Resume(fails: bool)
      requires Valid()
      modifies this
      ensures Valid()
      ensures State() == Playback.Resume(old(State()), fails)
    {
      if muted {
        return;
      }
      if playing && paused && !fails {
        paused := false;
      }
    }

    /** restart */
    method Restart(fails: bool)
      requires Valid()
      modifies this
      ensures Valid()
      ensures State() == Playback.Restart(old(State()), fails)
    {
      if muted {
        return;
      }
      if current.Some? && current.value in dir && !fails {
        playing := true;
        paused := false;
      }
    }

    /** mute */
    method Mute(now: int, stopFails: bool)
      requires Valid()
      modifies this
      ensures Valid()
      ensures State() == Playback.Mute(old(State()), now, stopFails)
    {
      if !muted {
        StopPlayback(now, stopFails);
        muted := true;
      }
    }

    /** unmute: returns whether the replay raised. */
    method Unmute(id: nat, now: int, stopFails: bool, outcome: Synthesis, locked: set<string>) returns (raised: bool)
      requires Valid()
      modifies this
      ensures Valid()
      ensures (State(), raised) == Unmuted(old(State()), id, now, stopFails, outcome, locked)
    {
      raised := false;
      if muted {
        muted := false;
        if lastText.Some? && lastText.value != "" {
          raised := Speak(lastText.value, id, now, stopFails, outcome, locked);
        }
      }
    }

    /** shutdown: the mixer stops and closes, the directory is swept; the flags stay. */
    method Shutdown(now: int, locked: set<string>)
      requires Valid()
      modifies this
      ensures Valid()
      ensures State() == Swept(old(State()), now, locked, MP3)
    {
      SweptKeepsCurrent(State(), now, locked, MP3);
      CleanupOldFiles(now, locked);
    }
  }
}
