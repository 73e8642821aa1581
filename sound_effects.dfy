/** Interface sound effects (`useSoundEffects`): a fixed table of tone configurations, a
    per-type throttle ledger, and the envelope each accepted sound schedules. */
module SoundEffects {

  datatype SoundType = Click | Hover | Transition | Success | Error

  datatype Waveform = Sine | Triangle | Sawtooth

  /** Frequency in Hz, duration in milliseconds, oscillator waveform, peak gain. */
  datatype SoundConfig = SoundConfig(frequency: nat, durationMs: nat, wave: Waveform, volume: real)

  /** Minimum time between two accepted sounds of the same type, in milliseconds. */
  const MinIntervalMs: int := 100
  /** Length of the envelope's rise, in seconds. */
  const AttackSeconds: real := 0.01

  /** The source's `SOUND_CONFIGS` table. */
  function Config(t: SoundType): (c: SoundConfig)
    ensures 30 <= c.durationMs <= 200
    ensures 0.0 < c.volume <= 0.15
  {
    match t
    case Click => SoundConfig(800, 50, Sine, 0.15)
    case Hover => SoundConfig(1200, 30, Sine, 0.08)
    case Transition => SoundConfig(600, 200, Sine, 0.1)
    case Success => SoundConfig(1000, 150, Triangle, 0.12)
    case Error => SoundConfig(400, 100, Sawtooth, 0.15)
  }

  /** Length of a sound, in seconds. */
  function DurationSeconds(t: SoundType): real
  {
    Config(t).durationMs as real / 1000.0
  }

  /** `duration / 1000 - attackTime`: every configured sound outlasts its attack, the
      shortest (hover, 30 ms) by 20 ms. */
  function ReleaseSeconds(t: SoundType): (r: real)
    ensures r >= 0.02
    ensures t == Hover ==> r == 0.02
  {
    DurationSeconds(t) - AttackSeconds
  }

  // ---------------------------------------------------------------- throttle ledger

  type Ledger = map<SoundType, int>

  /** `lastPlayTimeRef.current[type] || 0`: a missing entry counts as 0. */
  function LastPlayed(ledger: Ledger, t: SoundType): (r: int)
    ensures t !in ledger ==> r == 0
    ensures t in ledger ==> r == ledger[t]
  {
    if t in ledger then ledger[t] else 0
  }

  /** A call is dropped when it comes less than 100 ms after the last accepted one. */
  predicate Throttled(ledger: Ledger, t: SoundType, now: int)
  {
    now - LastPlayed(ledger, t) < MinIntervalMs
  }

  /** The ledger after an unmuted call at time `now`. */
  function Accept(ledger: Ledger, t: SoundType, now: int): (r: Ledger)
    ensures Throttled(ledger, t, now) ==> r == ledger
    ensures !Throttled(ledger, t, now) ==> LastPlayed(r, t) == now
    ensures forall u :: u != t ==> LastPlayed(r, u) == LastPlayed(ledger, u)
    ensures forall u :: u in r <==> u in ledger || (u == t && !Throttled(ledger, t, now))
  {
    if now - LastPlayed(ledger, t) < MinIntervalMs then ledger else ledger[t := now]
  }

  /** After a sound is accepted at `now`, the same type is dropped until 100 ms have
      passed, and is accepted again from then on; other types are unaffected. */
  lemma ThrottleWindow(ledger: Ledger, t: SoundType, now: int, later: int, u: SoundType)
    requires !Throttled(ledger, t, now)
    ensures Throttled(Accept(ledger, t, now), t, later) <==> later < now + MinIntervalMs
    ensures u != t ==> (Throttled(Accept(ledger, t, now), u, later) <==> Throttled(ledger, u, later))
  {
  }

  // ---------------------------------------------------------------- scheduled tones

  /** One point of a gain automation: a time in context seconds and a gain. */
  datatype GainPoint = GainPoint(time: real, value: real)

  /** The oscillator and envelope one accepted sound schedules on the audio context. */
  datatype Tone = Tone(wave: Waveform, frequency: nat, envelope: seq<GainPoint>,
                       startAt: real, stopAt: real)

  /** The tone for `t` when the context clock reads `t0`: silent at `t0`, the configured
      peak after the attack, silent again when the oscillator stops. */
  function ScheduleTone(t: SoundType, t0: real): (r: Tone)
    ensures r.wave == Config(t).wave && r.frequency == Config(t).frequency
    ensures r.startAt == t0 && r.stopAt - r.startAt == DurationSeconds(t)
    ensures |r.envelope| == 3
    ensures r.envelope[0] == GainPoint(r.startAt, 0.0)
    ensures r.envelope[1] == GainPoint(r.startAt + AttackSeconds, Config(t).volume)
    ensures r.envelope[2] == GainPoint(r.stopAt, 0.0)
    ensures forall i, j :: 0 <= i < j < |r.envelope| ==> r.envelope[i].time < r.envelope[j].time
  {
    var stop := t0 + Config(t).durationMs as real / 1000.0;
    assert stop - (t0 + AttackSeconds) == ReleaseSeconds(t);
    Tone(Config(t).wave, Config(t).frequency,
         [GainPoint(t0, 0.0), GainPoint(t0 + AttackSeconds, Config(t).volume), GainPoint(stop, 0.0)],
         t0, stop)
  }

  /** The hook's refs: whether the audio context exists, the ledger, and the tones
      scheduled so far. */
  class Effects {
    var contextReady: bool
    var lastPlayTime: Ledger
    var tones: seq<Tone>

    constructor ()
      ensures !contextReady && lastPlayTime == map[] && tones == []
    {
      contextReady := false;
      lastPlayTime := map[];
      tones := [];
    }

    /** The mount effect creates the audio context. */
    method Mount()
      modifies this
      ensures contextReady && lastPlayTime == old(lastPlayTime) && tones == old(tones)
    {
      contextReady := true;
    }

    /** `playSound(type)` at wall-clock `now` (ms) and context time `t0` (s). A muted
        call, or one before the context exists, touches nothing, not even the ledger. */
    method PlaySound(t: SoundType, globalMuted: bool, now: int, t0: real)
      modifies this
      ensures contextReady == old(contextReady)
      ensures globalMuted || !old(contextReady) ==>
                lastPlayTime == old(lastPlayTime) && tones == old(tones)
      ensures !globalMuted && old(contextReady) ==>
                lastPlayTime == Accept(old(lastPlayTime), t, now)
                && tones == old(tones) + (if Throttled(old(lastPlayTime), t, now) then []
                                          else [ScheduleTone(t, t0)])
    {
      if globalMuted || !contextReady {
        return;
      }
      var last := if t in lastPlayTime then lastPlayTime[t] else 0;
      if now - last < MinIntervalMs {
        return;
      }
      lastPlayTime := lastPlayTime[t := now];
      tones := tones + [ScheduleTone(t, t0)];
    }
  }

  /** Two clicks 50 ms apart make one tone; a hover in between is independent. */
  method ThrottleScenario() {
    var e := new Effects();
    e.Mount();
    e.PlaySound(Click, false, 1000, 1.0);
    e.PlaySound(Hover, false, 1020, 1.02);
    e.PlaySound(Click, false, 1050, 1.05);
    assert |e.tones| == 2;
    e.PlaySound(Click, false, 1100, 1.1);
    assert |e.tones| == 3 && e.lastPlayTime[Click] == 1100;
  }
}
