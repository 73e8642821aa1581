/** The background-music transport (`useMusicPlayer`): a playback-state record, an audio
    element with a gain node (abstract effects), a 60-step fade driven by an interval,
    delayed restarts after a track change, and preferences kept in key-value storage. */
module MusicPlayer {
  import opened Wrappers

  /** Default fade length, in milliseconds. */
  const FadeDurationMs: real := 1000.0
  /** Fade length used by mute and unmute, in milliseconds. */
  const MuteFadeDurationMs: real := 300.0
  /** Number of gain writes per fade. */
  const FadeSteps: nat := 60
  /** Delay before playback restarts after a track change, in milliseconds. */
  const RestartDelayMs: nat := 100
  const StorageKey: string := "portfolio_music_preferences"

  datatype Track = Track(id: string, title: string, artist: string, url: string)

  const DefaultTracks: seq<Track> := [
    Track("ambient-1", "Ethereal Dreams", "Generated Ambient", "/audio/music/track1.mp3"),
    Track("ambient-2", "Digital Horizons", "Generated Ambient", "/audio/music/track2.mp3")
  ]

  /** `Math.max(0, Math.min(1, v))`. */
  function Clamp01(v: real): (r: real)
    ensures 0.0 <= r <= 1.0
    ensures 0.0 <= v <= 1.0 ==> r == v
    ensures v < 0.0 ==> r == 0.0
    ensures v > 1.0 ==> r == 1.0
  {
    if v < 0.0 then 0.0 else if v > 1.0 then 1.0 else v
  }

  /** JavaScript's `a % n` for a positive `n`: the remainder of division truncated
      toward zero, so it takes the sign of `a`. */
  function JsRem(a: int, n: nat): (r: int)
    requires n > 0
    ensures exists q: int :: a == q * n + r
    ensures a >= 0 ==> 0 <= r < n
    ensures a < 0 ==> -(n as int) < r <= 0
  {
    if a >= 0 then
      assert a == (a / n) * n + a % n;
      a % n
    else
      var b := -a;
      assert b == (b / n) * n + b % n;
      assert a == (-(b / n)) * n + -(b % n);
      -(b % n)
  }

  /** The index `nextTrack` moves to: `(i + 1) % n`. */
  function NextIndex(i: int, n: nat): (r: int)
    requires n > 0
    ensures -1 <= i < n ==> 0 <= r < n
    ensures 0 <= i < n ==> r == if i == n - 1 then 0 else i + 1
  {
    JsRem(i + 1, n)
  }

  /** The index `previousTrack` moves to: `n - 1` from 0, else `i - 1`. */
  function PreviousIndex(i: int, n: nat): (r: int)
    requires n > 0
    ensures 0 <= i < n ==> 0 <= r < n
  {
    if i == 0 then n - 1 else i - 1
  }

  /** On valid indices the two moves are inverse to each other. */
  lemma PreviousNextInverse(i: int, n: nat)
    requires n > 0 && 0 <= i < n
    ensures PreviousIndex(NextIndex(i, n), n) == i
    ensures NextIndex(PreviousIndex(i, n), n) == i
  {
  }

  // ---------------------------------------------------------------- fades

  /** A fade in flight: the gain it started from, its target, the steps done so far and
      the interval period. */
  datatype Fade = Fade(startGain: real, target: real, step: nat, stepMs: real)

  /** The gain written by step `k` of a fade: a linear step clamped to [0, 1]. */
  function FadeGain(start: real, target: real, k: nat): (r: real)
    ensures 0.0 <= r <= 1.0
  {
    Clamp01(start + (target - start) / (FadeSteps as real) * (k as real))
  }

  /** The linear part reaches the target exactly at the last step. */
  lemma FadeGainFinal(start: real, target: real)
    requires 0.0 <= target <= 1.0
    ensures FadeGain(start, target, FadeSteps) == target
  {
    assert (target - start) / (FadeSteps as real) * (FadeSteps as real) == target - start;
  }

  /** A fade upwards never lowers the gain between steps, and a fade downwards never
      raises it. */
  lemma FadeGainMonotone(start: real, target: real, j: nat, k: nat)
    requires j <= k
    ensures start <= target ==> FadeGain(start, target, j) <= FadeGain(start, target, k)
    ensures target <= start ==> FadeGain(start, target, k) <= FadeGain(start, target, j)
  {
    var d := (target - start) / (FadeSteps as real);
    var diff := (k as real) - (j as real);
    assert d * (k as real) == d * (j as real) + d * diff;
    if start <= target {
      assert d >= 0.0 && diff >= 0.0;
      assert d * diff >= 0.0;
    } else {
      assert d <= 0.0 && diff >= 0.0;
      assert d * diff <= 0.0;
    }
  }

  // ---------------------------------------------------------------- preferences

  /** The persisted subset of the playback state. */
  datatype Settings = Settings(volume: real, isMuted: bool, trackIndex: int)

  /** A parsed stored object; any field may be missing or null. */
  datatype StoredPrefs = StoredPrefs(volume: Option<real>, isMuted: Option<bool>,
                                     currentTrackIndex: Option<int>)

  /** What the storage holds under a key: a parsed object, or something that does not
      parse to one (reading it throws, and the error is swallowed). */
  datatype Stored = Json(prefs: StoredPrefs) | Malformed

  type Storage = map<string, Stored>

  /** Field-by-field fallback of loaded preferences (`prefs.x ?? prev.x`). */
  function Merge(p: StoredPrefs, current: Settings): (r: Settings)
    ensures p.volume.Some? ==> r.volume == p.volume.value
    ensures p.isMuted.Some? ==> r.isMuted == p.isMuted.value
    ensures p.currentTrackIndex.Some? ==> r.trackIndex == p.currentTrackIndex.value
    ensures p.volume.None? ==> r.volume == current.volume
    ensures p.isMuted.None? ==> r.isMuted == current.isMuted
    ensures p.currentTrackIndex.None? ==> r.trackIndex == current.trackIndex
  {
    Settings(p.volume.GetOr(current.volume), p.isMuted.GetOr(current.isMuted),
             p.currentTrackIndex.GetOr(current.trackIndex))
  }

  /** The settings after the load effect: the stored record merged over the current
      settings, or the current settings when the key is absent or malformed. */
  function LoadFrom(store: Storage, current: Settings): (r: Settings)
    ensures StorageKey in store && store[StorageKey].Json? ==> r == Merge(store[StorageKey].prefs, current)
    ensures StorageKey !in store ==> r == current
    ensures StorageKey in store && store[StorageKey].Malformed? ==> r == current
  {
    if StorageKey in store && store[StorageKey].Json? then Merge(store[StorageKey].prefs, current)
    else current
  }

  /** The storage after the save effect; a failed write (quota) leaves it as it was. */
  function SaveTo(store: Storage, s: Settings, writeFails: bool): (r: Storage)
    ensures writeFails ==> r == store
    ensures !writeFails ==> (StorageKey in r && r[StorageKey] ==
              Json(StoredPrefs(Some(s.volume), Some(s.isMuted), Some(s.trackIndex))))
    ensures forall k :: k != StorageKey ==> (k in r <==> k in store)
    ensures forall k :: k in store && k != StorageKey ==> r[k] == store[k]
  {
    if writeFails then store
    else store[StorageKey := Json(StoredPrefs(Some(s.volume), Some(s.isMuted), Some(s.trackIndex)))]
  }

  /** A successful save followed by a load restores exactly the saved settings. */
  lemma SaveLoadRoundTrip(store: Storage, s: Settings, current: Settings)
    ensures LoadFrom(SaveTo(store, s, false), current) == s
  {
  }

  // ---------------------------------------------------------------- the player

  /** The source's `MusicPlayerState`. */
  datatype PlaybackState = PlaybackState(currentTrackIndex: int, isPlaying: bool, volume: real,
                                         isMuted: bool, duration: real, currentTime: real)

  /** The audio element and gain node once created: the element's source, whether it is
      producing sound, and the gain value. */
  datatype Audio = Audio(source: string, elementPlaying: bool, gain: real)

  const InitialState := PlaybackState(0, false, 0.3, true, 0.0, 0.0)

  /** The part of the player that `play` and `pause` change. */
  datatype Snapshot = Snapshot(state: PlaybackState, audio: Option<Audio>, fade: Option<Fade>)

  /** What `play` leaves, once its awaited steps have settled: the audio graph exists; an
      out-of-range index stops it there; otherwise the track is loaded, and when the
      browser lets it start (`playResolves`) the element plays, the state is marked
      playing and a 1000 ms fade runs from the current gain to 0 when muted or to the
      volume otherwise. */
  function PlayOutcome(tracks: seq<Track>, s: PlaybackState, audio: Option<Audio>,
                       fade: Option<Fade>, playResolves: bool): (r: Snapshot)
    ensures r.audio.Some?
    ensures r.state.isPlaying <==> s.isPlaying || (playResolves && 0 <= s.currentTrackIndex < |tracks|)
    ensures r.state.(isPlaying := s.isPlaying) == s
    ensures 0 <= s.currentTrackIndex < |tracks| ==> r.audio.value.source == tracks[s.currentTrackIndex].url
    ensures playResolves && 0 <= s.currentTrackIndex < |tracks| ==>
              r.audio.value.elementPlaying && r.fade.Some?
              && r.fade.value.target == (if s.isMuted then 0.0 else s.volume)
  {
    var a := if audio.Some? then audio.value else Audio("", false, 0.0);
    var i := s.currentTrackIndex;
    if !(0 <= i < |tracks|) then Snapshot(s, Some(a), fade)
    else if !playResolves then Snapshot(s, Some(a.(source := tracks[i].url)), fade)
    else Snapshot(s.(isPlaying := true), Some(a.(source := tracks[i].url, elementPlaying := true)),
                  Some(Fade(a.gain, if s.isMuted then 0.0 else s.volume, 0, FadeDurationMs / (FadeSteps as real))))
  }

  /** What `pause` leaves: nothing changes before the audio exists; otherwise the state is
      marked not playing and a 1000 ms fade to 0 replaces any fade in flight. */
  function PauseOutcome(s: PlaybackState, audio: Option<Audio>, fade: Option<Fade>): (r: Snapshot)
    ensures r.audio == audio
    ensures audio.Some? ==> !r.state.isPlaying && r.fade.Some? && r.fade.value.target == 0.0
    ensures r.state.(isPlaying := s.isPlaying) == s
  {
    if audio.None? then Snapshot(s, audio, fade)
    else Snapshot(s.(isPlaying := false), audio, Some(Fade(audio.value.gain, 0.0, 0, FadeDurationMs / (FadeSteps as real))))
  }

  class Player {
    const tracks: seq<Track>
    var state: PlaybackState
    /** `None` until the first `play` creates the audio graph. */
    var audio: Option<Audio>
    /** The fade interval in flight, if any. */
    var fade: Option<Fade>
    /** `play()` calls scheduled by track changes, not yet fired. */
    var pendingRestarts: nat

    ghost predicate Valid()
      reads this
    {
      |tracks| > 0 && (fade.Some? ==> audio.Some? && fade.value.step < FadeSteps)
    }

    function CurrentSettings(): Settings
      reads this
    {
      Settings(state.volume, state.isMuted, state.currentTrackIndex)
    }

    /** `tracks[state.currentTrackIndex]`: undefined when the index is out of range. */
    function CurrentTrack(): (r: Option<Track>)
      reads this
      ensures r.Some? <==> 0 <= state.currentTrackIndex < |tracks|
      ensures r.Some? ==> r.value == tracks[state.currentTrackIndex]
    {
      if 0 <= state.currentTrackIndex < |tracks| then Some(tracks[state.currentTrackIndex]) else None
    }

    constructor (tracks: seq<Track>)
      requires |tracks| > 0
      ensures Valid() && this.tracks == tracks
      ensures state == InitialState
      ensures audio == None && fade == None && pendingRestarts == 0
    {
      this.tracks := tracks;
      state := InitialState;
      audio := None;
      fade := None;
      pendingRestarts := 0;
    }

    /** `fadeVolume`: cancels the fade in flight and starts one from the current gain. */
    method FadeVolume(target: real, durationMs: real)
      requires Valid()
      modifies this
      ensures Valid()
      ensures state == old(state) && audio == old(audio) && pendingRestarts == old(pendingRestarts)
      ensures fade == if old(audio).Some?
                      then Some(Fade(old(audio).value.gain, target, 0, durationMs / (FadeSteps as real)))
                      else old(fade)
    {
      if audio.None? {
        return;
      }
      fade := Some(Fade(audio.value.gain, target, 0, durationMs / (FadeSteps as real)));
    }

    /** One firing of the fade interval. The last step writes the unclamped target, stops
        the interval, and pauses the element when the target is 0. */
    method FadeTick()
      requires Valid() && fade.Some?
      modifies this
      ensures Valid()
      ensures state == old(state) && pendingRestarts == old(pendingRestarts)
      ensures var f := old(fade).value;
              var a := old(audio).value;
              if f.step + 1 >= FadeSteps then
                fade == None
                && audio == Some(a.(gain := f.target,
                                    elementPlaying := a.elementPlaying && f.target != 0.0))
              else
                fade == Some(f.(step := f.step + 1))
                && audio == Some(a.(gain := FadeGain(f.startGain, f.target, f.step + 1)))
    {
      var f := fade.value;
      var step := f.step + 1;
      audio := Some(audio.value.(gain := FadeGain(f.startGain, f.target, step)));
      if step >= FadeSteps {
        fade := None;
        audio := Some(audio.value.(gain := f.target));
        if f.target == 0.0 {
          audio := Some(audio.value.(elementPlaying := false));
        }
      } else {
        fade := Some(f.(step := step));
      }
    }

    /** The fade interval firing until it stops, with no other event in between. */
    method RunFade()
      requires Valid() && fade.Some?
      modifies this
      ensures Valid()
      ensures state == old(state) && pendingRestarts == old(pendingRestarts)
      ensures fade == None
      ensures audio == Some(old(audio).value.(gain := old(fade).value.target,
                              elementPlaying := old(audio).value.elementPlaying
                                                && old(fade).value.target != 0.0))
    {
      ghost var f0 := fade.value;
      ghost var a0 := audio.value;
      while fade.Some?
        invariant Valid() && audio.Some?
        invariant state == old(state) && pendingRestarts == old(pendingRestarts)
        invariant fade.Some? ==> fade.value.target == f0.target && fade.value.startGain == f0.startGain
        invariant fade.Some? ==> audio.value.source == a0.source
                                 && audio.value.elementPlaying == a0.elementPlaying
        invariant fade.None? ==> audio == Some(a0.(gain := f0.target,
                                   elementPlaying := a0.elementPlaying && f0.target != 0.0))
        decreases if fade.Some? then FadeSteps - fade.value.step else 0
      {
        FadeTick();
      }
    }

    /** `play`, once its awaited steps have settled. `playResolves` is whether the
        browser lets the element start (autoplay policy); when it does not, the awaited
        call throws and nothing after it runs. */
    method Play(playResolves: bool)
      requires Valid()
      modifies this
      ensures Valid()
      ensures pendingRestarts == old(pendingRestarts)
      ensures Snapshot(state, audio, fade) == PlayOutcome(tracks, old(state), old(audio), old(fade), playResolves)
    {
      if audio.None? {
        audio := Some(Audio("", false, 0.0));
      }
      if !(0 <= state.currentTrackIndex < |tracks|) {
        return;
      }
      var url := tracks[state.currentTrackIndex].url;
      if audio.value.source != url {
        audio := Some(audio.value.(source := url));
      }
      if !playResolves {
        return;
      }
      audio := Some(audio.value.(elementPlaying := true));
      var target := if state.isMuted then 0.0 else state.volume;
      state := state.(isPlaying := true);
      FadeVolume(target, FadeDurationMs);
    }

    /** Marks not playing at once; the element is paused when the fade to 0 ends. */
    method Pause()
      requires Valid()
      modifies this
      ensures Valid()
      ensures pendingRestarts == old(pendingRestarts)
      ensures Snapshot(state, audio, fade) == PauseOutcome(old(state), old(audio), old(fade))
    {
      if audio.None? {
        return;
      }
      state := state.(isPlaying := false);
      FadeVolume(0.0, FadeDurationMs);
    }

    method TogglePlay(playResolves: bool)
      requires Valid()
      modifies this
      ensures Valid()
      ensures pendingRestarts == old(pendingRestarts)
      ensures Snapshot(state, audio, fade) ==
                if old(state).isPlaying then PauseOutcome(old(state), old(audio), old(fade))
                else PlayOutcome(tracks, old(state), old(audio), old(fade), playResolves)
    {
      if state.isPlaying {
        Pause();
      } else {
        Play(playResolves);
      }
    }

    /** Moves to the next track and stops; a restart is scheduled if it was playing. */
    method NextTrack()
      requires Valid()
      modifies this
      ensures Valid()
      ensures state == old(state).(currentTrackIndex := NextIndex(old(state).currentTrackIndex, |tracks|),
                                   isPlaying := false)
      ensures pendingRestarts == old(pendingRestarts) + (if old(state).isPlaying then 1 else 0)
      ensures audio == old(audio) && fade == old(fade)
    {
      var wasPlaying := state.isPlaying;
      state := state.(currentTrackIndex := JsRem(state.currentTrackIndex + 1, |tracks|), isPlaying := false);
      if wasPlaying {
        pendingRestarts := pendingRestarts + 1;
      }
    }

    method PreviousTrack()
      requires Valid()
      modifies this
      ensures Valid()
      ensures state == old(state).(currentTrackIndex := PreviousIndex(old(state).currentTrackIndex, |tracks|),
                                   isPlaying := false)
      ensures pendingRestarts == old(pendingRestarts) + (if old(state).isPlaying then 1 else 0)
      ensures audio == old(audio) && fade == old(fade)
    {
      var wasPlaying := state.isPlaying;
      var i := state.currentTrackIndex;
      state := state.(currentTrackIndex := if i == 0 then |tracks| - 1 else i - 1, isPlaying := false);
      if wasPlaying {
        pendingRestarts := pendingRestarts + 1;
      }
    }

    /** A restart scheduled by a track change fires (100 ms later) and calls `play`. */
    method RestartFired(playResolves: bool)
      requires Valid() && pendingRestarts > 0
      modifies this
      ensures Valid()
      ensures pendingRestarts == old(pendingRestarts) - 1
      ensures Snapshot(state, audio, fade) == PlayOutcome(tracks, old(state), old(audio), old(fade), playResolves)
    {
      pendingRestarts := pendingRestarts - 1;
      Play(playResolves);
    }

    /** Stores the clamped volume; the live gain follows only while playing unmuted. */
    method SetVolume(v: real)
      requires Valid()
      modifies this
      ensures Valid()
      ensures state == old(state).(volume := Clamp01(v))
      ensures audio == if old(audio).Some? && !old(state).isMuted && old(state).isPlaying
                       then Some(old(audio).value.(gain := Clamp01(v))) else old(audio)
      ensures fade == old(fade) && pendingRestarts == old(pendingRestarts)
    {
      var clamped := if v < 0.0 then 0.0 else if v > 1.0 then 1.0 else v;
      state := state.(volume := clamped);
      if audio.Some? && !state.isMuted && state.isPlaying {
        audio := Some(audio.value.(gain := clamped));
      }
    }

    /** Flips the mute flag; while playing, fades in 300 ms to the volume (unmute) or to 0. */
    method ToggleMute()
      requires Valid()
      modifies this
      ensures Valid()
      ensures state == old(state).(isMuted := !old(state).isMuted)
      ensures audio == old(audio) && pendingRestarts == old(pendingRestarts)
      ensures fade == if old(audio).Some? && old(state).isPlaying
                      then Some(Fade(old(audio).value.gain,
                                     if old(state).isMuted then old(state).volume else 0.0,
                                     0, MuteFadeDurationMs / (FadeSteps as real)))
                      else old(fade)
    {
      var wasMuted := state.isMuted;
      state := state.(isMuted := !wasMuted);
      if audio.Some? && state.isPlaying {
        FadeVolume(if wasMuted then state.volume else 0.0, MuteFadeDurationMs);
      }
    }

    /** `toggleMute` with the element resumed on unmute: a fade to 0 pauses the element,
        so after muting while playing, unmuting must start it again to be heard. */
    method ToggleMuteAudible()
      requires Valid()
      modifies this
      ensures Valid()
      ensures state == old(state).(isMuted := !old(state).isMuted)
      ensures pendingRestarts == old(pendingRestarts)
      ensures fade == if old(audio).Some? && old(state).isPlaying
                      then Some(Fade(old(audio).value.gain,
                                     if old(state).isMuted then old(state).volume else 0.0,
                                     0, MuteFadeDurationMs / (FadeSteps as real)))
                      else old(fade)
      ensures audio == if old(audio).Some? && old(state).isPlaying && old(state).isMuted
                       then Some(old(audio).value.(elementPlaying := true)) else old(audio)
    {
      var resume := audio.Some? && state.isPlaying && state.isMuted;
      ToggleMute();
      if resume {
        audio := Some(audio.value.(elementPlaying := true));
      }
    }

    /** Sets the position at once, with no fade; a no-op before the element exists. */
    method Seek(time: real)
      requires Valid()
      modifies this
      ensures Valid()
      ensures state == if old(audio).Some? then old(state).(currentTime := time) else old(state)
      ensures audio == old(audio) && fade == old(fade) && pendingRestarts == old(pendingRestarts)
    {
      if audio.Some? {
        state := state.(currentTime := time);
      }
    }

    /** The element's `timeupdate` event. */
    method TimeUpdate(time: real)
      requires Valid() && audio.Some?
      modifies this
      ensures Valid()
      ensures state == old(state).(currentTime := time)
      ensures audio == old(audio) && fade == old(fade) && pendingRestarts == old(pendingRestarts)
    {
      state := state.(currentTime := time);
    }

    /** The element's `loadedmetadata` event. */
    method LoadedMetadata(duration: real)
      requires Valid() && audio.Some?
      modifies this
      ensures Valid()
      ensures state == old(state).(duration := duration)
      ensures audio == old(audio) && fade == old(fade) && pendingRestarts == old(pendingRestarts)
    {
      state := state.(duration := duration);
    }

    /** The load effect on mount. */
    method LoadPreferences(store: Storage)
      requires Valid()
      modifies this
      ensures Valid()
      ensures CurrentSettings() == LoadFrom(store, old(CurrentSettings()))
      ensures state.isPlaying == old(state).isPlaying && state.duration == old(state).duration
      ensures state.currentTime == old(state).currentTime
      ensures audio == old(audio) && fade == old(fade) && pendingRestarts == old(pendingRestarts)
    {
      if StorageKey in store && store[StorageKey].Json? {
        var p := store[StorageKey].prefs;
        state := state.(volume := p.volume.GetOr(state.volume),
                        isMuted := p.isMuted.GetOr(state.isMuted),
                        currentTrackIndex := p.currentTrackIndex.GetOr(state.currentTrackIndex));
      }
    }

    /** The storage after the save effect that runs whenever the persisted fields change. */
    function SavedStore(store: Storage, writeFails: bool): (r: Storage)
      reads this
      ensures !writeFails ==> LoadFrom(r, InitialSettings) == CurrentSettings()
    {
      SaveTo(store, CurrentSettings(), writeFails)
    }

    /** Unmount: the fade stops and the element is paused and emptied. */
    method Teardown()
      requires Valid()
      modifies this
      ensures Valid()
      ensures fade == None && state == old(state) && pendingRestarts == old(pendingRestarts)
      ensures audio == if old(audio).Some? then Some(old(audio).value.(source := "", elementPlaying := false))
                       else None
    {
      fade := None;
      if audio.Some? {
        audio := Some(audio.value.(source := "", elementPlaying := false));
      }
    }
  }

  const InitialSettings := Settings(InitialState.volume, InitialState.isMuted, InitialState.currentTrackIndex)

  /** A volume stored by `setVolume` is always within [0, 1]: `setVolume(-0.5)` stores 0
      and `setVolume(1.7)` stores 1. */
  method VolumeScenario() {
    var p := new Player(DefaultTracks);
    p.SetVolume(-0.5);
    assert p.state.volume == 0.0;
    p.SetVolume(1.7);
    assert p.state.volume == 1.0;
  }

  /** With two tracks, `previousTrack` from 0 gives 1 and `nextTrack` from 1 gives 0. */
  method TrackWrapScenario() {
    var p := new Player(DefaultTracks);
    p.PreviousTrack();
    assert p.state.currentTrackIndex == 1;
    p.NextTrack();
    assert p.state.currentTrackIndex == 0;
  }

  /** As written, the player starts muted, so `play` fades to 0 and the end of that fade
      pauses the element. Unmuting then raises the gain to the volume while the element
      stays paused and the state still says playing: nothing is heard. With the element
      resumed on unmute, the track plays at the volume. */
  method SilentUnmuteScenario() {
    var p := new Player(DefaultTracks);
    p.SetVolume(0.5);
    p.Play(true);
    p.RunFade();
    assert p.audio.value.gain == 0.0 && p.state.isPlaying && !p.audio.value.elementPlaying;
    p.ToggleMute();
    p.RunFade();
    assert !p.state.isMuted && p.state.isPlaying && p.audio.value.gain == 0.5;
    assert !p.audio.value.elementPlaying;

    var q := new Player(DefaultTracks);
    q.SetVolume(0.5);
    q.Play(true);
    q.RunFade();
    q.ToggleMuteAudible();
    q.RunFade();
    assert !q.state.isMuted && q.audio.value.gain == 0.5 && q.audio.value.elementPlaying;
  }
}
