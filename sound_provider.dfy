/** The sound context (`SoundProvider`): one mute flag in front of the effects hook. */
module SoundProvider {
  import opened SoundEffects

  class Provider {
    var isMuted: bool
    const effects: Effects

    constructor (effects: Effects)
      ensures !isMuted && this.effects == effects
    {
      isMuted := false;
      this.effects := effects;
    }

    method ToggleMute()
      modifies this
      ensures isMuted == !old(isMuted)
    {
      isMuted := !isMuted;
    }

    method SetMuted(muted: bool)
      modifies this
      ensures isMuted == muted
    {
      isMuted := muted;
    }

    /** Forwards to the hook only when unmuted; the hook receives the same flag. A muted
        provider touches neither the ledger nor the tones; an unmuted one acts exactly as
        the hook does for an unmuted call. */
    method PlaySound(t: SoundType, now: int, t0: real)
      modifies effects
      ensures effects.contextReady == old(effects.contextReady)
      ensures isMuted || !old(effects.contextReady) ==>
                effects.lastPlayTime == old(effects.lastPlayTime) && effects.tones == old(effects.tones)
      ensures !isMuted && old(effects.contextReady) ==>
                effects.lastPlayTime == Accept(old(effects.lastPlayTime), t, now)
                && effects.tones == old(effects.tones)
                                    + (if Throttled(old(effects.lastPlayTime), t, now) then []
                                       else [ScheduleTone(t, t0)])
    {
      if !isMuted {
        effects.PlaySound(t, isMuted, now, t0);
      }
    }
  }

  /** Toggling twice restores the flag, and `setMuted` overrides any prior value. */
  method MuteScenario(e: Effects)
    modifies e
  {
    var p := new Provider(e);
    p.ToggleMute();
    p.ToggleMute();
    assert !p.isMuted;
    p.SetMuted(true);
    p.SetMuted(true);
    assert p.isMuted;
    p.PlaySound(Click, 5000, 5.0);
  }
}
