/** The hero carousel's scheduler (`useHeroRotation`): an index into N variants that a
    repeating timer advances, a manual pause flag, and a user-override flag that an
    explicit selection sets and a 10-second timer clears. Timers are explicit events. */
module HeroRotation {

  /** The rotation interval when the caller gives none, in milliseconds. */
  const DefaultIntervalMs: nat := 5000
  /** How long an explicit selection suspends rotation, in milliseconds. */
  const CooldownMs: int := 10000

  /** `(prev + 1) % variants`, the step of the timer and of `next`. */
  function Advance(v: int, n: nat): (r: int)
    requires 0 <= v < n
    ensures 0 <= r < n
    ensures r == if v == n - 1 then 0 else v + 1
  {
    (v + 1) % n
  }

  /** `(prev - 1 + variants) % variants`, the step of `previous`. */
  function Retreat(v: int, n: nat): (r: int)
    requires 0 <= v < n
    ensures 0 <= r < n
    ensures r == if v == 0 then n - 1 else v - 1
  {
    (v - 1 + n) % n
  }

  /** `previous` undoes `next` and `next` undoes `previous`. */
  lemma RetreatAdvance(v: int, n: nat)
    requires 0 <= v < n
    ensures Retreat(Advance(v, n), n) == v
    ensures Advance(Retreat(v, n), n) == v
  {
  }

  class Rotation {
    const variants: nat
    const interval: nat
    const pauseOnInteraction: bool
    var currentVariant: int
    /** Set by `pause`, cleared by `resume`. */
    var isPaused: bool
    /** Set by an explicit selection, cleared by its cooldown timer or by `resume`. */
    var userPaused: bool
    /** Due times of the scheduled `setUserPaused(false)` callbacks. The source never
        cancels them, so several can be pending at once. */
    var pendingClears: multiset<int>

    ghost predicate Valid()
      reads this
    {
      0 <= currentVariant < variants
    }

    constructor (variants: nat, interval: nat, pauseOnInteraction: bool)
      requires variants > 0
      ensures Valid()
      ensures this.variants == variants && this.interval == interval
      ensures this.pauseOnInteraction == pauseOnInteraction
      ensures currentVariant == 0 && !isPaused && !userPaused
      ensures pendingClears == multiset{}
    {
      this.variants := variants;
      this.interval := interval;
      this.pauseOnInteraction := pauseOnInteraction;
      currentVariant := 0;
      isPaused := false;
      userPaused := false;
      pendingClears := multiset{};
    }

    /** The interval timer is installed only when nothing suspends rotation. */
    predicate RotationActive(prefersReducedMotion: bool)
      reads this
    {
      !prefersReducedMotion && !isPaused && !userPaused
    }

    /** The `isPaused` the hook reports to its caller. */
    function ReportedPaused(prefersReducedMotion: bool): (r: bool)
      reads this
      ensures r <==> !RotationActive(prefersReducedMotion)
    {
      isPaused || userPaused || prefersReducedMotion
    }

    /** One firing of the rotation interval. */
    method Tick(prefersReducedMotion: bool)
      requires Valid()
      modifies this
      ensures Valid()
      ensures currentVariant == if old(RotationActive(prefersReducedMotion))
                                then Advance(old(currentVariant), variants)
                                else old(currentVariant)
      ensures isPaused == old(isPaused) && userPaused == old(userPaused)
      ensures pendingClears == old(pendingClears)
    {
      if RotationActive(prefersReducedMotion) {
        currentVariant := (currentVariant + 1) % variants;
      }
    }

    /** Explicit selection at time `now`; out-of-range indices are ignored. */
    method SetVariant(index: int, now: int)
      requires Valid()
      modifies this
      ensures Valid()
      ensures isPaused == old(isPaused)
      ensures !(0 <= index < variants) ==>
                currentVariant == old(currentVariant) && userPaused == old(userPaused)
                && pendingClears == old(pendingClears)
      ensures 0 <= index < variants ==> currentVariant == index
      ensures 0 <= index < variants && pauseOnInteraction ==>
                userPaused && pendingClears == old(pendingClears) + multiset{now + CooldownMs}
      ensures 0 <= index < variants && !pauseOnInteraction ==>
                userPaused == old(userPaused) && pendingClears == old(pendingClears)
    {
      if 0 <= index < variants {
        currentVariant := index;
        if pauseOnInteraction {
          userPaused := true;
          pendingClears := pendingClears + multiset{now + CooldownMs};
        }
      }
    }

    /** One scheduled cooldown callback fires. */
    method CooldownExpired(due: int)
      requires Valid()
      requires due in pendingClears
      modifies this
      ensures Valid()
      ensures !userPaused
      ensures pendingClears == old(pendingClears) - multiset{due}
      ensures currentVariant == old(currentVariant) && isPaused == old(isPaused)
    {
      pendingClears := pendingClears - multiset{due};
      userPaused := false;
    }

    method Next()
      requires Valid()
      modifies this
      ensures Valid()
      ensures currentVariant == Advance(old(currentVariant), variants)
      ensures isPaused == old(isPaused) && userPaused == old(userPaused)
      ensures pendingClears == old(pendingClears)
    {
      currentVariant := (currentVariant + 1) % variants;
    }

    method Previous()
      requires Valid()
      modifies this
      ensures Valid()
      ensures currentVariant == Retreat(old(currentVariant), variants)
      ensures isPaused == old(isPaused) && userPaused == old(userPaused)
      ensures pendingClears == old(pendingClears)
    {
      currentVariant := (currentVariant - 1 + variants) % variants;
    }

    method Pause()
      requires Valid()
      modifies this
      ensures Valid()
      ensures isPaused
      ensures currentVariant == old(currentVariant) && userPaused == old(userPaused)
      ensures pendingClears == old(pendingClears)
    {
      isPaused := true;
    }

    /** Clears both pause flags; pending cooldown callbacks stay scheduled. */
    method Resume()
      requires Valid()
      modifies this
      ensures Valid()
      ensures !isPaused && !userPaused
      ensures currentVariant == old(currentVariant)
      ensures pendingClears == old(pendingClears)
    {
      isPaused := false;
      userPaused := false;
    }
  }

  /** A selection pauses rotation, and its cooldown resumes it. */
  method CooldownScenario() {
    var r := new Rotation(3, DefaultIntervalMs, true);
    r.SetVariant(2, 0);
    assert r.currentVariant == 2 && r.ReportedPaused(false);
    r.Tick(false);
    assert r.currentVariant == 2;
    r.CooldownExpired(CooldownMs);
    assert !r.ReportedPaused(false);
    r.Tick(false);
    assert r.currentVariant == 0;
  }

  /** Because cooldown callbacks are never cancelled, the one scheduled by an earlier
      selection ends the pause of a later selection made only 5 seconds before. */
  method OverlappingCooldowns() {
    var r := new Rotation(3, DefaultIntervalMs, true);
    r.SetVariant(1, 0);
    r.SetVariant(2, 5000);
    assert r.pendingClears == multiset{CooldownMs, 5000 + CooldownMs};
    r.CooldownExpired(CooldownMs);
    assert !r.ReportedPaused(false) && 5000 + CooldownMs in r.pendingClears;
  }
}
