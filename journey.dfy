/** The guided-journey page: a four-stage session (select, prepare, journey,
    complete) with a one-second journey counter capped at three minutes, a
    four-phase breathing cycle driven by an elapsed-milliseconds tick, and the
    `m:ss` clock format. Timers become explicit events; the clock is the `now`
    argument of the events that read it. */
module Journey {
  import opened Wrappers

  /** The four intentions a journey can be dedicated to. */
  datatype Intention = Healing | Clarity | Energy | Peace

  datatype Stage = Select | Prepare | InJourney | Complete

  /** The journey length in seconds. */
  const JourneyDuration: nat := 180

  /** Delay between pressing begin and the journey starting, in milliseconds. */
  const PrepareDelayMs: nat := 3000

  // ---------------------------------------------------------------------------
  // The `m:ss` clock

  function DigitChar(d: nat): (c: char)
    requires d < 10
    ensures IsDigit(c) && DigitValue(c) == d
  {
    (d + '0' as int) as char
  }

  predicate IsDigit(c: char)
  {
    '0' <= c <= '9'
  }

  function DigitValue(c: char): (d: nat)
    requires IsDigit(c)
    ensures d < 10
  {
    (c as int) - ('0' as int)
  }

  predicate AllDigits(s: string)
  {
    forall i :: 0 <= i < |s| ==> IsDigit(s[i])
  }

  /** The number a string of decimal digits denotes. */
  function DigitsValue(s: string): nat
    requires AllDigits(s)
  {
    if s == [] then 0 else 10 * DigitsValue(s[..|s| - 1]) + DigitValue(s[|s| - 1])
  }

  /** The decimal numeral of a natural number, as template interpolation writes it:
      at least one digit, and no leading zero unless the number is zero. */
  function NatToString(n: nat): (r: string)
    ensures |r| >= 1 && AllDigits(r)
    ensures |r| > 1 ==> r[0] != '0'
    ensures n < 10 <==> |r| == 1
  {
    if n < 10 then [DigitChar(n)] else NatToString(n / 10) + [DigitChar(n % 10)]
  }

  /** Reading back a numeral gives the number. */
  lemma {:induction false} NatToStringValue(n: nat)
    ensures DigitsValue(NatToString(n)) == n
  {
    if n >= 10 {
      var r := NatToString(n);
      NatToStringValue(n / 10);
      assert r[..|r| - 1] == NatToString(n / 10);
    }
  }

  /** `padStart(2, '0')`. */
  function PadStart2(s: string): (r: string)
    ensures |r| == if |s| < 2 then 2 else |s|
    ensures AllDigits(s) ==> AllDigits(r) && DigitsValue(r) == DigitsValue(s)
  {
    if |s| == 0 then "00"
    else if |s| == 1 then
      assert AllDigits(s) ==> DigitsValue(['0'] + s) == DigitsValue(s) by {
        if AllDigits(s) { assert (['0'] + s)[..1] == ['0']; }
      }
      ['0'] + s
    else s
  }

  /** `formatTime`: whole minutes, a colon, and the remaining seconds as two digits. */
  function FormatTime(seconds: nat): (r: string)
    ensures |r| >= 4 && r[|r| - 3] == ':'
    ensures AllDigits(r[..|r| - 3]) && AllDigits(r[|r| - 2..])
    ensures DigitsValue(r[..|r| - 3]) == seconds / 60
    ensures DigitsValue(r[|r| - 2..]) == seconds % 60
    ensures 60 * DigitsValue(r[..|r| - 3]) + DigitsValue(r[|r| - 2..]) == seconds
    ensures |r| > 4 ==> r[0] != '0'
  {
    var m := NatToString(seconds / 60);
    var ss := PadStart2(NatToString(seconds % 60));
    NatToStringValue(seconds / 60);
    NatToStringValue(seconds % 60);
    var r := m + ":" + ss;
    assert r[..|r| - 3] == m;
    assert r[|r| - 2..] == ss;
    r
  }

  /** The inverse reading of a clock string: minutes before the colon, two-digit
      seconds below sixty after it. */
  function ParseTime(t: string): (r: Option<nat>)
  {
    if |t| >= 4 && t[|t| - 3] == ':' && AllDigits(t[..|t| - 3]) && AllDigits(t[|t| - 2..])
       && DigitsValue(t[|t| - 2..]) < 60
    then Some(60 * DigitsValue(t[..|t| - 3]) + DigitsValue(t[|t| - 2..]))
    else None
  }

  /** Parsing a formatted time gives the seconds back, so distinct times display
      differently. */
  lemma FormatTimeRoundTrip(seconds: nat)
    ensures ParseTime(FormatTime(seconds)) == Some(seconds)
  {
  }

  lemma FormatTimeInjective(a: nat, b: nat)
    requires FormatTime(a) == FormatTime(b)
    ensures a == b
  {
    FormatTimeRoundTrip(a);
    FormatTimeRoundTrip(b);
  }

  /** The journey length displays as `3:00`; the last second of a minute as `0:59`. */
  lemma FormatTimeExamples()
    ensures FormatTime(JourneyDuration) == "3:00"
    ensures FormatTime(59) == "0:59"
    ensures FormatTime(605) == "10:05"
  {
    assert NatToString(3) == "3" && PadStart2(NatToString(0)) == "00" by {}
    FormatTimeIs(JourneyDuration, "3", "00");
    assert NatToString(0) == "0" && PadStart2(NatToString(59)) == "59" by {}
    FormatTimeIs(59, "0", "59");
    assert NatToString(10) == "10" && PadStart2(NatToString(5)) == "05" by {}
    FormatTimeIs(605, "10", "05");
  }

  /** The clock string is the minutes' numeral, a colon and the padded seconds. */
  lemma FormatTimeIs(seconds: nat, m: string, ss: string)
    requires NatToString(seconds / 60) == m && PadStart2(NatToString(seconds % 60)) == ss
    ensures FormatTime(seconds) == m + ":" + ss
  {
  }

  // ---------------------------------------------------------------------------
  // The journey counter

  /** The counter as its interval sees it: seconds elapsed and whether the cap
      has forced completion (after which the interval is cleared). */
  datatype Counter = Counter(time: nat, complete: bool)

  /** One firing of the one-second interval. */
  function CounterTick(c: Counter): (r: Counter)
    ensures c.complete ==> r == c
    ensures !c.complete && c.time < JourneyDuration ==> r == Counter(c.time + 1, false)
    ensures !c.complete && c.time >= JourneyDuration ==> r == Counter(c.time, true)
  {
    if c.complete then c
    else if c.time >= JourneyDuration then Counter(c.time, true)
    else Counter(c.time + 1, false)
  }

  /** The counter after `n` firings. */
  function CounterRun(c: Counter, n: nat): Counter
  {
    if n == 0 then c else CounterTick(CounterRun(c, n - 1))
  }

  /** From zero, `n` firings count `min(n, 180)` seconds, and completion comes
      with the 181st firing, never earlier. */
  lemma {:induction false} CounterFromZero(n: nat)
    ensures CounterRun(Counter(0, false), n)
            == Counter(if n <= JourneyDuration then n else JourneyDuration, n > JourneyDuration)
  {
    if n > 0 {
      CounterFromZero(n - 1);
    }
  }

  /** A counter within the cap stays within it. */
  lemma {:induction false} CounterBounded(c: Counter, n: nat)
    requires c.time <= JourneyDuration
    ensures CounterRun(c, n).time <= JourneyDuration
    ensures CounterRun(c, n).time >= c.time
  {
    if n > 0 {
      CounterBounded(c, n - 1);
    }
  }

  // ---------------------------------------------------------------------------
  // The breathing cycle

  /** Breathe in, hold, breathe out, rest. */
  const Phases: nat := 4

  /** Duration of each breathing phase in milliseconds. */
  function PhaseDuration(phase: nat): (ms: nat)
    requires phase < Phases
    ensures ms == 2000 || ms == 4000
    ensures ms == 4000 <==> phase % 2 == 0
  {
    [4000, 2000, 4000, 2000][phase]
  }

  function NextPhase(phase: nat): (r: nat)
    requires phase < Phases
    ensures r < Phases && r != phase
    ensures phase < Phases - 1 ==> r == phase + 1
    ensures phase == Phases - 1 ==> r == 0
  {
    (phase + 1) % Phases
  }

  /** `Math.min(elapsed / duration, 1)`. */
  function BreathProgress(elapsed: int, duration: nat): (p: real)
    requires duration > 0
    ensures p <= 1.0
    ensures elapsed >= 0 ==> 0.0 <= p
    ensures p == 1.0 <==> elapsed >= duration
    ensures elapsed < duration ==> p * (duration as real) == elapsed as real
  {
    var q := (elapsed as real) / (duration as real);
    if q < 1.0 then q else 1.0
  }

  /** The breathing loop's own state: its phase and when that phase began. */
  datatype Breath = Breath(phase: nat, start: int)

  /** One run of the breathing tick at time `now`: the phase advances, and its
      start moves to `now`, exactly when the phase's duration has elapsed. */
  function BreathStep(b: Breath, now: int): (r: Breath)
    requires b.phase < Phases
    ensures r.phase < Phases
    ensures r.phase != b.phase <==> now - b.start >= PhaseDuration(b.phase)
    ensures r.phase != b.phase ==> r == Breath(NextPhase(b.phase), now)
    ensures r.phase == b.phase ==> r == b
  {
    if now - b.start >= PhaseDuration(b.phase) then Breath(NextPhase(b.phase), now) else b
  }

  /** Ticking exactly at each phase boundary walks the whole cycle in 12 seconds
      and returns to breathing in. */
  lemma BreathCycle(t0: int)
    ensures BreathStep(Breath(0, t0), t0 + 4000) == Breath(1, t0 + 4000)
    ensures BreathStep(Breath(1, t0 + 4000), t0 + 6000) == Breath(2, t0 + 6000)
    ensures BreathStep(Breath(2, t0 + 6000), t0 + 10000) == Breath(3, t0 + 10000)
    ensures BreathStep(Breath(3, t0 + 10000), t0 + 12000) == Breath(0, t0 + 12000)
  {
  }

  /** Four advances return to the same phase. */
  lemma FourPhasesCycle(phase: nat)
    requires phase < Phases
    ensures NextPhase(NextPhase(NextPhase(NextPhase(phase)))) == phase
  {
  }

  // ---------------------------------------------------------------------------
  // The session

  /** The page's state. The breathing loop keeps its own phase (`loopPhase`,
      `phaseStart`) apart from the displayed `breathPhase`. */
  class Session {
    var stage: Stage
    var intention: Option<Intention>
    var isPlaying: bool
    /** The phase the breathing circle shows. */
    var breathPhase: nat
    var breathProgress: real
    /** Seconds elapsed in the journey. */
    var journeyTime: nat
    /** Whether the three-second preparation timeout is still to fire. */
    var preparePending: bool
    /** The breathing loop's local phase and the time that phase started. */
    var loopPhase: nat
    var phaseStart: int

    ghost predicate Valid()
      reads this
    {
      && (isPlaying ==> stage == InJourney)
      && (stage != Select ==> intention.Some?)
      && (preparePending <==> stage == Prepare)
      && journeyTime <= JourneyDuration
      && breathPhase < Phases && loopPhase < Phases
      && breathProgress <= 1.0
    }

    /** Both timers of the journey run exactly while this holds. */
    predicate Running()
      reads this
    {
      stage == InJourney && isPlaying
    }

    constructor ()
      ensures Valid()
      ensures stage == Select && intention == None && !isPlaying
      ensures breathPhase == 0 && breathProgress == 0.0 && journeyTime == 0 && !preparePending
    {
      stage := Select;
      intention := None;
      isPlaying := false;
      breathPhase := 0;
      breathProgress := 0.0;
      journeyTime := 0;
      preparePending := false;
      loopPhase := 0;
      phaseStart := 0;
    }

    /** Clicking an intention card on the select stage. */
    method SelectIntention(i: Intention)
      requires Valid() && stage == Select
      modifies this`intention
      ensures Valid() && intention == Some(i)
    {
      intention := Some(i);
    }

    /** The begin button: disabled until an intention is chosen, it then moves to
        the prepare stage and schedules the preparation timeout. */
    method BeginJourney()
      requires Valid() && stage == Select
      modifies this`stage, this`preparePending
      ensures Valid()
      ensures old(intention).None? ==> stage == Select && !preparePending
      ensures old(intention).Some? ==> stage == Prepare && preparePending
    {
      if intention.Some? {
        stage := Prepare;
        preparePending := true;
      }
    }

    /** The breathing effect starting at `now`: the loop begins at phase 0 and its
        immediate first tick shows zero progress. The displayed phase is left as it is. */
    method StartBreathing(now: int)
      requires Valid()
      modifies this`loopPhase, this`phaseStart, this`breathProgress
      ensures Valid()
      ensures loopPhase == 0 && phaseStart == now && breathProgress == 0.0
    {
      loopPhase := 0;
      phaseStart := now;
      breathProgress := BreathProgress(0, PhaseDuration(0));
    }

    /** The preparation timeout firing at `now`: the journey starts playing. */
    method PrepareElapsed(now: int)
      requires Valid()
      modifies this
      ensures Valid()
      ensures !old(preparePending) ==>
        && stage == old(stage) && isPlaying == old(isPlaying) && !preparePending
        && loopPhase == old(loopPhase) && phaseStart == old(phaseStart)
        && breathProgress == old(breathProgress)
      ensures old(preparePending) ==>
        && stage == InJourney && isPlaying && !preparePending
        && loopPhase == 0 && phaseStart == now && breathProgress == 0.0
      ensures intention == old(intention) && journeyTime == old(journeyTime)
      ensures breathPhase == old(breathPhase)
    {
      if preparePending {
        preparePending := false;
        stage := InJourney;
        isPlaying := true;
        StartBreathing(now);
      }
    }

    /** The play/pause button. Resuming restarts the breathing loop at phase 0 while
        the displayed phase keeps its old value until the loop next advances. */
    method TogglePlayPause(now: int)
      requires Valid() && stage == InJourney
      modifies this`isPlaying, this`loopPhase, this`phaseStart, this`breathProgress
      ensures Valid()
      ensures isPlaying == !old(isPlaying)
      ensures isPlaying ==> loopPhase == 0 && phaseStart == now && breathProgress == 0.0
      ensures breathPhase == old(breathPhase)
      ensures !isPlaying ==>
        loopPhase == old(loopPhase) && phaseStart == old(phaseStart) && breathProgress == old(breathProgress)
    {
      isPlaying := !isPlaying;
      if isPlaying {
        StartBreathing(now);
      }
    }

    /** The end button: stop and complete, keeping the elapsed time. */
    method EndJourney()
      requires Valid() && stage == InJourney
      modifies this`isPlaying, this`stage
      ensures Valid() && !isPlaying && stage == Complete
      ensures journeyTime == old(journeyTime) && intention == old(intention)
    {
      isPlaying := false;
      stage := Complete;
    }

    /** The reset button on the complete stage: back to selection with everything cleared. */
    method ResetJourney()
      requires Valid() && stage == Complete
      modifies this`stage, this`intention, this`journeyTime, this`breathPhase, this`breathProgress
      ensures Valid()
      ensures stage == Select && intention == None && !isPlaying
      ensures journeyTime == 0 && breathPhase == 0 && breathProgress == 0.0
    {
      stage := Select;
      intention := None;
      journeyTime := 0;
      breathPhase := 0;
      breathProgress := 0.0;
    }

    /** The one-second interval: counts up to the cap, and at the cap completes the
        journey and stops. Nothing happens unless the journey is running. */
    method JourneyTick()
      requires Valid()
      modifies this`journeyTime, this`stage, this`isPlaying
      ensures Valid()
      ensures !old(Running()) ==>
        journeyTime == old(journeyTime) && stage == old(stage) && isPlaying == old(isPlaying)
      ensures old(Running()) ==>
        && Counter(journeyTime, stage == Complete) == CounterTick(Counter(old(journeyTime), false))
        && (stage == Complete || stage == InJourney)
        && isPlaying == (stage == InJourney)
    {
      if stage == InJourney && isPlaying {
        if journeyTime >= JourneyDuration {
          stage := Complete;
          isPlaying := false;
        } else {
          journeyTime := journeyTime + 1;
        }
      }
    }

    /** The breathing loop's tick at time `now`: progress through the current phase,
        and on reaching its duration the next phase, shown and restarted at `now`. */
    method BreathTick(now: int)
      requires Valid()
      modifies this`breathProgress, this`loopPhase, this`breathPhase, this`phaseStart
      ensures Valid()
      ensures !old(Running()) ==>
        && breathProgress == old(breathProgress) && loopPhase == old(loopPhase)
        && breathPhase == old(breathPhase) && phaseStart == old(phaseStart)
      ensures old(Running()) ==>
        && breathProgress == BreathProgress(now - old(phaseStart), PhaseDuration(old(loopPhase)))
        && Breath(loopPhase, phaseStart) == BreathStep(Breath(old(loopPhase), old(phaseStart)), now)
        && breathPhase == (if loopPhase != old(loopPhase) then loopPhase else old(breathPhase))
    {
      if stage == InJourney && isPlaying {
        var elapsed := now - phaseStart;
        var duration := PhaseDuration(loopPhase);
        breathProgress := BreathProgress(elapsed, duration);
        if elapsed >= duration {
          loopPhase := NextPhase(loopPhase);
          breathPhase := loopPhase;
          phaseStart := now;
        }
      }
    }
  }
}
