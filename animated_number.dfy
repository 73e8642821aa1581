/** The experience highlights' counter (`AnimatedNumber` in `AboutExperience`): once in
    view, the first number inside a label counts up from 0 in 30 interval steps of
    1500 / 30 ms, then the label is shown as given. The count is kept in exact reals. */
module AnimatedNumber {
  import opened Wrappers
  import opened Text

  const DurationMs: nat := 1500
  const Steps: nat := 30

  /** The first maximal run of digits, `value.match(/(\d+)/)`: positions `start` to `end`. */
  datatype Run = Run(start: nat, end: nat)

  /** The first digit at or after position `i`. */
  function FirstDigitFrom(s: string, i: nat): (r: Option<nat>)
    requires i <= |s|
    ensures r.None? <==> forall k :: i <= k < |s| ==> !IsDigit(s[k])
    ensures r.Some? ==> i <= r.value < |s| && IsDigit(s[r.value])
                        && forall k :: i <= k < r.value ==> !IsDigit(s[k])
    decreases |s| - i
  {
    if i == |s| then None
    else if IsDigit(s[i]) then Some(i)
    else FirstDigitFrom(s, i + 1)
  }

  /** The end of the digit run that starts at or before `i`. */
  function RunEnd(s: string, i: nat): (r: nat)
    requires i <= |s|
    ensures i <= r <= |s| && AllDigits(s[i..r])
    ensures r == |s| || !IsDigit(s[r])
    decreases |s| - i
  {
    if i == |s| || !IsDigit(s[i]) then i
    else
      var e := RunEnd(s, i + 1);
      assert s[i..e] == [s[i]] + s[i + 1..e];
      e
  }

  function DigitRun(s: string): (r: Option<Run>)
    ensures r.None? <==> forall k :: 0 <= k < |s| ==> !IsDigit(s[k])
    ensures r.Some? ==> r.value.start < r.value.end <= |s|
                        && AllDigits(s[r.value.start..r.value.end])
                        && (forall k :: 0 <= k < r.value.start ==> !IsDigit(s[k]))
                        && (r.value.end == |s| || !IsDigit(s[r.value.end]))
  {
    match FirstDigitFrom(s, 0)
    case None => None
    case Some(i) => Some(Run(i, RunEnd(s, i + 1)))
  }

  /** `parseInt(match[1], 10)`. */
  function Target(s: string, run: Run): (r: nat)
    requires run.start <= run.end <= |s| && AllDigits(s[run.start..run.end])
    ensures r < Pow10(run.end - run.start)
    ensures forall n: nat :: s[run.start..run.end] == NatToDecimal(n) ==> r == n
  {
    ParseBounded(s[run.start..run.end]);
    ParseRenderedAll();
    ParseDecimal(s[run.start..run.end])
  }

  /** `value.replace(/\d+/, text)`: the same first run replaced by `text`. */
  function ReplaceRun(s: string, run: Run, text: string): (r: string)
    requires run.start <= run.end <= |s|
    ensures |r| == |s| - (run.end - run.start) + |text|
    ensures r[..run.start] == s[..run.start] && r[run.start..run.start + |text|] == text
    ensures r[run.start + |text|..] == s[run.end..]
  {
    s[..run.start] + text + s[run.end..]
  }

  /** The count after `k` steps, each adding `target / 30` to the previous count. */
  function CountAfter(target: nat, k: nat): (r: real)
    ensures r >= 0.0
  {
    if k == 0 then 0.0 else CountAfter(target, k - 1) + target as real / Steps as real
  }

  /** After `k` steps the count is `k * target / 30`. */
  lemma {:induction false} CountClosedForm(target: nat, k: nat)
    ensures CountAfter(target, k) == (k as real) * (target as real) / (Steps as real)
  {
    if k > 0 {
      CountClosedForm(target, k - 1);
      var t := target as real;
      assert (k as real) * t == ((k - 1) as real) * t + t;
    }
  }

  /** The count reaches the target exactly at step 30, or at once for a target of 0. */
  lemma ReachedIff(target: nat, k: nat)
    ensures CountAfter(target, k) >= target as real <==> target == 0 || k >= Steps
  {
    CountClosedForm(target, k);
    var t := target as real;
    if target > 0 && k < Steps {
      BelowAfterFewer(k, t);
    }
    if k >= Steps {
      ReachedAfterAll(k, t);
    }
  }

  lemma BelowAfterFewer(k: nat, t: real)
    requires k < Steps && t > 0.0
    ensures (k as real) * t / (Steps as real) < t
  {
    assert (30.0 - k as real) * t > 0.0;
  }

  lemma ReachedAfterAll(k: nat, t: real)
    requires k >= Steps && t >= 0.0
    ensures (k as real) * t / (Steps as real) >= t
  {
    assert (k as real - 30.0) * t >= 0.0;
  }

  /** The count never decreases from one step to a later one. */
  lemma CountMonotone(target: nat, k1: nat, k2: nat)
    requires k1 <= k2
    ensures CountAfter(target, k1) <= CountAfter(target, k2)
  {
    CountClosedForm(target, k1);
    CountClosedForm(target, k2);
    var t := target as real;
    var d := (k2 - k1) as real;
    assert (k2 as real) * t == (k1 as real) * t + d * t;
    assert d * t >= 0.0;
  }

  lemma FloorMonotone(x: real, y: real)
    requires x <= y
    ensures x.Floor <= y.Floor
  {
    assert x.Floor as real <= x && y < y.Floor as real + 1.0;
  }

  /** Counts shown before the end grow with the step, and stay below the target. */
  lemma ShownCounts(target: nat, k1: nat, k2: nat)
    requires k1 <= k2 < Steps && target > 0
    ensures CountAfter(target, k1).Floor <= CountAfter(target, k2).Floor
    ensures 0 <= CountAfter(target, k2).Floor < target
  {
    CountMonotone(target, k1, k2);
    FloorMonotone(CountAfter(target, k1), CountAfter(target, k2));
    ReachedIff(target, k2);
    var y := CountAfter(target, k2);
    assert y.Floor as real <= y < target as real;
  }

  /** What one step from step `k`, short of the target, leads to: the new count, whether
      it reaches the target, and, if not, the whole part it shows. */
  lemma StepFacts(target: nat, k: nat)
    requires k < Steps && (target == 0 ==> k == 0)
    ensures CountAfter(target, k + 1) == CountAfter(target, k) + target as real / Steps as real
    ensures CountAfter(target, k + 1) >= target as real <==> target == 0 || k + 1 == Steps
    ensures CountAfter(target, k + 1) < target as real ==>
              CountAfter(target, k).Floor <= CountAfter(target, k + 1).Floor < target
  {
    ReachedIff(target, k + 1);
    if k + 1 < Steps && target > 0 {
      ShownCounts(target, k, k + 1);
    }
  }

  /** The label a step shows: the label itself once the target is reached, that is at
      step 30 or at once for a target of 0; before that, the label with its first number
      replaced by the whole part of the count, `k * target / 30` rounded down. */
  function StepLabel(value: string, run: Run, target: nat, k: nat): (r: string)
    requires run.start <= run.end <= |value|
    ensures target == 0 || k >= Steps ==> r == value
    ensures target > 0 && k < Steps ==> r == ReplaceRun(value, run, NatToDecimal(k * target / Steps))
  {
    var c := CountAfter(target, k);
    ReachedIff(target, k);
    if c >= target as real then value
    else
      CountClosedForm(target, k);
      assert (k as real) * (target as real) == (k * target) as real;
      QuotientFloor(k * target);
      ReplaceRun(value, run, IntToDecimal(c.Floor))
  }

  /** The whole part of `a / 30` is the integer quotient. */
  lemma QuotientFloor(a: nat)
    ensures ((a as real) / (Steps as real)).Floor == a / Steps
  {
    var q := a / Steps;
    var m := a % Steps;
    assert (a as real) == (q as real) * 30.0 + (m as real);
    assert (a as real) / 30.0 == (q as real) + (m as real) / 30.0;
  }

  class Counter {
    var value: string
    var displayValue: string
    /** The first number of `value` and its parsed value, while counting. */
    var run: Run
    var target: nat
    var current: real
    var ticks: nat
    var timerRunning: bool

    /** `run` is the first number of `value` and `target` its parsed value. */
    predicate Counting()
      reads this
    {
      DigitRun(value) == Some(run) && target == Target(value, run)
    }

    /** A running interval replaces a run inside `value` and has taken `ticks` steps,
        fewer than 30 (none for a zero target), so the target is not reached. Which run
        and which target is `Counting`. */
    predicate Valid()
      reads this
    {
      timerRunning ==>
        run.start < run.end <= |value|
        && current == CountAfter(target, ticks)
        && ticks < Steps && (target == 0 ==> ticks == 0)
    }

    /** The initial render shows the label unchanged. */
    constructor (value: string)
      ensures this.value == value && displayValue == value && !timerRunning
      ensures Valid()
    {
      this.value := value;
      displayValue := value;
      run := Run(0, 0);
      target := 0;
      current := 0.0;
      ticks := 0;
      timerRunning := false;
    }

    /** The effect, run after mount and whenever the label, the in-view flag or the
        reduced-motion preference changes; its cleanup first clears the old interval. */
    method Effect(newValue: string, isInView: bool, prefersReducedMotion: bool)
      modifies this
      ensures value == newValue && Valid()
      ensures !isInView || prefersReducedMotion ==> displayValue == newValue && !timerRunning
      ensures isInView && !prefersReducedMotion && DigitRun(newValue).None? ==>
                displayValue == newValue && !timerRunning
      ensures isInView && !prefersReducedMotion && DigitRun(newValue).Some? ==>
                timerRunning && Counting() && run == DigitRun(newValue).value && ticks == 0 && current == 0.0
                && target == Target(newValue, run) && displayValue == old(displayValue)
    {
      timerRunning := false;
      value := newValue;
      if !isInView || prefersReducedMotion {
        displayValue := newValue;
        return;
      }
      var m := DigitRun(newValue);
      if m.None? {
        displayValue := newValue;
        return;
      }
      run := m.value;
      target := Target(newValue, run);
      current := 0.0;
      ticks := 0;
      timerRunning := true;
    }

    /** One interval step: add `target / 30`; at the target show the label and stop. */
    method Tick()
      requires Valid() && timerRunning
      modifies this`current, this`ticks, this`displayValue, this`timerRunning
      ensures current == old(current) + target as real / Steps as real
      ensures ticks == old(ticks) + 1
      ensures current == CountAfter(target, ticks)
      ensures displayValue == StepLabel(value, run, target, ticks)
      ensures !timerRunning <==> current >= target as real
      ensures !timerRunning ==> displayValue == value
      ensures timerRunning ==> old(current).Floor <= current.Floor < target
      ensures Valid() && (Counting() <==> old(Counting()))
    {
      StepFacts(target, ticks);
      current := current + target as real / Steps as real;
      ticks := ticks + 1;
      if current >= target as real {
        displayValue := value;
        timerRunning := false;
      } else {
        displayValue := ReplaceRun(value, run, IntToDecimal(current.Floor));
      }
    }

    /** Unmounting runs the cleanup. */
    method Unmount()
      modifies this`timerRunning
      ensures !timerRunning
    {
      timerRunning := false;
    }
  }

  /** "5+ years": the count shows 0, 0, ... and finishes with the label at step 30. */
  method CountScenario()
  {
    var c := new Counter("5+");
    assert DigitRun("5+") == Some(Run(0, 1)) by {
      assert IsDigit("5+"[0]) && !IsDigit("5+"[1]);
    }
    c.Effect("5+", true, false);
    assert c.target == 5 by {
      assert "5+"[0..1] == "5";
    }
    c.Tick();
    assert c.timerRunning && c.ticks == 1;
  }
}
