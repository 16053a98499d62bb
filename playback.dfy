// The playback state both speech providers (utils/tts_provider.py and
// utils/local_tts_provider.py) keep, the flag transitions they share and the sweep of their
// temporary directory. The mixer's calls are opaque: each may fail, and a failing call is
// an argument. Clock readings are integer milliseconds; the temporary directory is the set
// of file names in it.
module Playback {
  import opened Wrappers
  import opened Text

  datatype Player = Player(
    playing: bool,
    paused: bool,
    muted: bool,
    current: Option<string>,
    lastText: Option<string>,
    active: map<string, int>,
    dir: set<string>)

  /** A file tracked longer than five seconds may be removed. */
  const STALE_AFTER := 5000

  const PREFIX := "speech_"
  const MP3 := ".mp3"
  const WAV := ".wav"

  /** The provider state before anything was spoken, over the files already in the directory. */
  function Fresh(existing: set<string>): Player {
    Player(false, false, false, None, None, map[], existing)
  }

  /** A pause implies playback, and the current file is tracked and on disk. */
  predicate Valid(s: Player) {
    (s.paused ==> s.playing)
    && (s.current.Some? ==> s.current.value in s.active && s.current.value in s.dir)
  }

  lemma FreshIsValid(existing: set<string>)
    ensures Valid(Fresh(existing)) && !Fresh(existing).playing && !Fresh(existing).muted
  {
  }

  // ---- The sweep of the temporary directory (_cleanup_old_files) ----

  /** What glob("speech_*" + ext) matches. */
  predicate IsTempName(p: string, ext: string) {
    |p| >= |PREFIX| + |ext| && StartsWith(p, PREFIX) && EndsWith(p, ext)
  }

  predicate IsStale(s: Player, p: string, now: int)
    requires p in s.active
  {
    now - s.active[p] > STALE_AFTER
  }

  /** The first pass removes a stale tracked file other than the current one, unless it is
      on disk and refuses to go (locked). */
  predicate DropsTracked(s: Player, p: string, now: int, locked: set<string>) {
    p in s.active && IsStale(s, p, now) && Some(p) != s.current && !(p in s.dir && p in locked)
  }

  function AfterTracked(s: Player, now: int, locked: set<string>): Player {
    s.(active := map p | p in s.active && !DropsTracked(s, p, now, locked) :: s.active[p],
       dir := set p | p in s.dir && !DropsTracked(s, p, now, locked))
  }

  /** The second pass removes an untracked temporary file other than the current one, unless
      it is locked. */
  predicate DropsOrphan(s: Player, p: string, ext: string, locked: set<string>) {
    IsTempName(p, ext) && p !in s.active && Some(p) != s.current && p !in locked
  }

  function AfterOrphans(s: Player, ext: string, locked: set<string>): Player {
    s.(dir := set p | p in s.dir && !DropsOrphan(s, p, ext, locked))
  }

  /** _cleanup_old_files */
  function Swept(s: Player, now: int, locked: set<string>, ext: string): Player {
    AfterOrphans(AfterTracked(s, now, locked), ext, locked)
  }

  /** The first pass of _cleanup_old_files: gather the stale tracked files and remove each
      that is not the current one. */
  method SweepTracked(s: Player, now: int, locked: set<string>) returns (r: Player)
    ensures r == AfterTracked(s, now, locked)
  {
    var stale := set p | p in s.active && IsStale(s, p, now);
    var active := s.active;
    var dir := s.dir;
    var todo := stale;
    while todo != {}
      invariant todo <= stale
      invariant forall p :: p in active <==> p in s.active && (p in todo || !DropsTracked(s, p, now, locked))
      invariant forall p :: p in active ==> active[p] == s.active[p]
      invariant forall p :: p in dir <==> p in s.dir && (p in todo || !DropsTracked(s, p, now, locked))
      decreases |todo|
    {
      var p :| p in todo;
      if Some(p) != s.current && !(p in dir && p in locked) {
        dir := dir - {p};
        active := active - {p};
      }
      todo := todo - {p};
    }
    r := s.(active := active, dir := dir);
  }

  /** The second pass: unlink every untracked temporary file but the current one. */
  method SweepOrphans(s: Player, ext: string, locked: set<string>) returns (r: Player)
    ensures r == AfterOrphans(s, ext, locked)
  {
    var dir := s.dir;
    var listed := s.dir;
    while listed != {}
      invariant listed <= s.dir
      invariant forall p :: p in dir <==> p in s.dir && (p in listed || !DropsOrphan(s, p, ext, locked))
      decreases |listed|
    {
      var p :| p in listed;
      if IsTempName(p, ext) && p !in s.active && Some(p) != s.current && p !in locked {
        dir := dir - {p};
      }
      listed := listed - {p};
    }
    r := s.(dir := dir);
  }

  /** _cleanup_old_files */
  method Sweep(s: Player, now: int, locked: set<string>, ext: string) returns (r: Player)
    ensures r == Swept(s, now, locked, ext)
  {
    var mid := SweepTracked(s, now, locked);
    r := SweepOrphans(mid, ext, locked);
  }

  /** The sweep touches nothing but the tracked files and the directory, and never the
      current file or its time. */
  lemma SweptKeepsCurrent(s: Player, now: int, locked: set<string>, ext: string)
    requires Valid(s)
    ensures var r := Swept(s, now, locked, ext);
            Valid(r) && r.(active := s.active, dir := s.dir) == s
            && (s.current.Some? ==> r.active[s.current.value] == s.active[s.current.value])
  {
  }

  /** A file the sweep removes is not the current one, is not locked, and was either a stale
      tracked file or an untracked temporary file. */
  lemma SweptRemovesOnlyOld(s: Player, now: int, locked: set<string>, ext: string, p: string)
    requires p in s.dir && p !in Swept(s, now, locked, ext).dir
    ensures Some(p) != s.current && p !in locked
    ensures DropsTracked(s, p, now, locked) || (IsTempName(p, ext) && p !in Swept(s, now, locked, ext).active)
  {
  }

  /** Every stale tracked file other than the current one goes, with its entry, unless it
      is on disk and locked. */
  lemma SweptRemovesStale(s: Player, now: int, locked: set<string>, ext: string, p: string)
    requires p in s.active && now - s.active[p] > STALE_AFTER && Some(p) != s.current
    requires p !in locked
    ensures p !in Swept(s, now, locked, ext).dir && p !in Swept(s, now, locked, ext).active
  {
  }

  /** A file that is neither tracked nor named like a temporary file is never removed. */
  lemma SweptKeepsForeignFiles(s: Player, now: int, locked: set<string>, ext: string, p: string)
    requires p in s.dir && p !in s.active && !IsTempName(p, ext)
    ensures p in Swept(s, now, locked, ext).dir
  {
  }

  /** Sweeping twice at the same instant removes nothing more. */
  lemma SweptIdempotent(s: Player, now: int, locked: set<string>, ext: string)
    ensures Swept(Swept(s, now, locked, ext), now, locked, ext) == Swept(s, now, locked, ext)
  {
    var r := Swept(s, now, locked, ext);
    var r2 := Swept(r, now, locked, ext);
    forall p | p in r.active ensures !DropsTracked(r, p, now, locked) {
      assert p in s.active && !DropsTracked(s, p, now, locked);
    }
    assert AfterTracked(r, now, locked).active == r.active;
    assert AfterTracked(r, now, locked).dir == r.dir;
    assert r2.active == r.active;
    assert r2.dir == r.dir;
  }

  // ---- Flag transitions ----

  /** _stop_playback: a stop that succeeds clears both flags and stamps the current file. */
  function StopPlayback(s: Player, now: int, fails: bool): Player {
    if s.playing && !fails then
      s.(playing := false, paused := false,
         active := if s.current.Some? then s.active[s.current.value := now] else s.active)
    else s
  }

  /** pause: only a playing, unpaused, unmuted player pauses. */
  function Pause(s: Player, fails: bool): Player {
    if s.playing && !s.paused && !s.muted && !fails then s.(paused := true) else s
  }

  /** resume: refused while muted; only a paused player resumes. */
  function Resume(s: Player, fails: bool): Player {
    if s.muted then s
    else if s.playing && s.paused && !fails then s.(paused := false)
    else s
  }

  /** restart: refused while muted; replays the current file when it is on disk. */
  function Restart(s: Player, fails: bool): Player {
    if s.muted then s
    else if s.current.Some? && s.current.value in s.dir && !fails then s.(playing := true, paused := false)
    else s
  }

  /** mute: stop and set the flag; muting a muted player does nothing. */
  function Mute(s: Player, now: int, stopFails: bool): Player {
    if !s.muted then StopPlayback(s, now, stopFails).(muted := true) else s
  }

  /** stop: stop playback, then sweep. */
  function Stop(s: Player, now: int, stopFails: bool, locked: set<string>, ext: string): Player {
    Swept(StopPlayback(s, now, stopFails), now, locked, ext)
  }

  /** The state a successful playback of name leaves: the previous current file is stamped,
      name becomes the tracked, current, playing file. */
  function Playing(s: Player, name: string, now: int): Player {
    var stamped := if s.current.Some? then s.active[s.current.value := now] else s.active;
    s.(current := Some(name), active := stamped[name := now], dir := s.dir + {name},
       playing := true, paused := false)
  }

  /** Every flag transition keeps the state valid. */
  lemma TransitionsKeepValid(s: Player, now: int, fails: bool, locked: set<string>, ext: string, name: string)
    requires Valid(s)
    ensures Valid(StopPlayback(s, now, fails)) && Valid(Pause(s, fails)) && Valid(Resume(s, fails))
    ensures Valid(Restart(s, fails)) && Valid(Mute(s, now, fails)) && Valid(Stop(s, now, fails, locked, ext))
    ensures Valid(Playing(s, name, now))
  {
    SweptKeepsCurrent(StopPlayback(s, now, fails), now, locked, ext);
  }

  /** A successful stop leaves nothing playing or paused and leaves the mute flag alone. */
  lemma StopSilences(s: Player, now: int, locked: set<string>, ext: string)
    requires Valid(s)
    ensures var r := Stop(s, now, false, locked, ext);
            !r.playing && !r.paused && r.muted == s.muted && r.current == s.current
  {
  }

  /** Pausing and then resuming a playing player gives back the same state. */
  lemma PauseResumeRoundTrip(s: Player)
    requires s.playing && !s.paused && !s.muted
    ensures Pause(s, false).paused
    ensures Resume(Pause(s, false), false) == s
  {
  }

  /** While muted, pause, resume and restart do nothing. */
  lemma MutedIgnoresControls(s: Player, fails: bool)
    requires s.muted
    ensures Pause(s, fails) == s && Resume(s, fails) == s && Restart(s, fails) == s
  {
  }

  /** Muting twice is muting once; a successful mute also stops playback. */
  lemma MuteIdempotent(s: Player, now: int, stopFails: bool)
    ensures Mute(Mute(s, now, stopFails), now, stopFails) == Mute(s, now, stopFails)
    ensures Mute(s, now, stopFails).muted
    ensures !s.muted ==> !Mute(s, now, false).playing
  {
  }

  /** On a valid state restart never misses its file: a player with a current file, unmuted,
      always plays again unless the mixer fails. */
  lemma RestartReplaysCurrent(s: Player)
    requires Valid(s) && !s.muted && s.current.Some?
    ensures Restart(s, false).playing && !Restart(s, false).paused
    ensures Restart(s, false).current == s.current
  {
  }
}
