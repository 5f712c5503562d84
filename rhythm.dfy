/** The rhythm step-sequencer: eight drum pads, an 8 x 8 on/off pattern
    (pad x step), a transport that advances a step cursor on a repeating timer
    and fires every pad set at the new step, presets, and keyboard routing.
    Playing a tone is modelled as emitting the pad's index. */
module RhythmGenerator {
  import opened Wrappers

  /** One drum pad: identifier, display name, trigger key, colour and tone frequency in Hz. */
  datatype DrumPad = DrumPad(id: string, name: string, key: char, color: string, frequency: nat)

  const DrumPads: seq<DrumPad> := [
    DrumPad("kick", "Bass", 'Q', "#ef4444", 80),
    DrumPad("snare", "Snare", 'W', "#f97316", 200),
    DrumPad("tom1", "Tom 1", 'E', "#eab308", 150),
    DrumPad("tom2", "Tom 2", 'R', "#22c55e", 120),
    DrumPad("hihat", "Hi-Hat", 'A', "#3b82f6", 800),
    DrumPad("crash", "Crash", 'S', "#8b5cf6", 600),
    DrumPad("frame", "Frame", 'D', "#ec4899", 300),
    DrumPad("shaker", "Shaker", 'F', "#14b8a6", 1000)
  ]

  /** Rows of the pattern (one per pad) and columns (steps of one measure). */
  const Pads: nat := 8
  const Steps: nat := 8

  /** The tempo slider's bounds and the tempo the sequencer starts with. */
  const MinBpm: int := 40
  const MaxBpm: int := 200
  const InitialBpm: int := 120

  /** A pattern: rows of cells, row index = pad, column index = step. */
  type Grid = seq<seq<int>>

  /** Exactly eight rows of eight cells each. */
  predicate IsGrid(g: Grid)
  {
    |g| == Pads && forall i :: 0 <= i < |g| ==> |g[i]| == Steps
  }

  /** A grid whose every cell is 0 or 1. */
  predicate IsPattern(g: Grid)
  {
    IsGrid(g) && forall i, j :: 0 <= i < Pads && 0 <= j < Steps ==> g[i][j] == 0 || g[i][j] == 1
  }

  /** Two grids with the same cells are equal. */
  lemma GridExt(a: Grid, b: Grid)
    requires IsGrid(a) && IsGrid(b)
    requires forall i, j :: 0 <= i < Pads && 0 <= j < Steps ==> a[i][j] == b[i][j]
    ensures a == b
  {
    forall i | 0 <= i < Pads ensures a[i] == b[i] {
      assert |a[i]| == |b[i]|;
    }
  }

  /** The initial pattern, and the one `clearPattern` installs. */
  function EmptyGrid(): (g: Grid)
    ensures IsPattern(g)
    ensures forall i, j :: 0 <= i < Pads && 0 <= j < Steps ==> g[i][j] == 0
  {
    seq(Pads, _ => seq(Steps, _ => 0))
  }

  /** `cell ? 0 : 1`: a set cell becomes 0, an unset one 1. */
  function Flip(v: int): (r: int)
    ensures r == 0 || r == 1
    ensures (v == 0 || v == 1) ==> r == 1 - v
  {
    if v != 0 then 0 else 1
  }

  /** The grid with cell (p, s) flipped and every other cell as it was. */
  function Toggled(g: Grid, p: nat, s: nat): (r: Grid)
    requires IsGrid(g) && p < Pads && s < Steps
    ensures IsGrid(r)
    ensures IsPattern(g) ==> IsPattern(r)
    ensures r[p][s] == Flip(g[p][s])
    ensures forall i, j :: 0 <= i < Pads && 0 <= j < Steps && (i, j) != (p, s) ==> r[i][j] == g[i][j]
  {
    g[p := g[p][s := Flip(g[p][s])]]
  }

  /** Toggling the same cell twice restores the pattern. */
  lemma ToggleTwice(g: Grid, p: nat, s: nat)
    requires IsPattern(g) && p < Pads && s < Steps
    ensures Toggled(Toggled(g, p, s), p, s) == g
  {
    var t := Toggled(Toggled(g, p, s), p, s);
    forall i | 0 <= i < Pads ensures t[i] == g[i] {
      assert |t[i]| == |g[i]|;
      forall j | 0 <= j < Steps ensures t[i][j] == g[i][j] {
      }
    }
  }

  /** The step after `step`: the cursor wraps after the eighth step. */
  function NextStep(step: nat): (r: nat)
    ensures r < Steps
    ensures step < Steps - 1 ==> r == step + 1
    ensures step == Steps - 1 ==> r == 0
  {
    (step + 1) % Steps
  }

  /** The cursor after `n` ticks, starting at `step`. */
  function StepAfter(step: nat, n: nat): nat
  {
    if n == 0 then step else NextStep(StepAfter(step, n - 1))
  }

  /** From any step in range, `n` ticks land on `(step + n) mod 8`, so the cursor
      visits every step in turn and never leaves [0, 7]. */
  lemma {:induction false} StepAfterWraps(step: nat, n: nat)
    requires step < Steps
    ensures StepAfter(step, n) == (step + n) % Steps
  {
    if n > 0 {
      StepAfterWraps(step, n - 1);
    }
  }

  /** Starting from step 0, the first tick sounds step 1, and step 0 is sounded
      first by the eighth tick. */
  lemma FirstColumnOnEighthTick(n: nat)
    requires 1 <= n <= 8
    ensures StepAfter(0, 1) == 1
    ensures StepAfter(0, n) == 0 <==> n == 8
  {
    StepAfterWraps(0, 1);
    StepAfterWraps(0, n);
  }

  /** The pads below `n` whose row is set at `step`, in pad order. */
  function FiredBelow(g: Grid, step: nat, n: nat): (r: seq<nat>)
    requires IsGrid(g) && step < Steps && n <= Pads
    ensures forall k :: 0 <= k < |r| ==> r[k] < n
    ensures forall k, l :: 0 <= k < l < |r| ==> r[k] < r[l]
    ensures forall i: nat :: i in r <==> i < n && g[i][step] != 0
  {
    if n == 0 then []
    else FiredBelow(g, step, n - 1) + (if g[n - 1][step] != 0 then [n - 1] else [])
  }

  /** The pads a tick landing on `step` fires. */
  function Fired(g: Grid, step: nat): (r: seq<nat>)
    requires IsGrid(g) && step < Steps
    ensures forall k, l :: 0 <= k < l < |r| ==> r[k] < r[l]
    ensures forall i: nat :: i in r <==> i < Pads && g[i][step] != 0
  {
    FiredBelow(g, step, Pads)
  }

  /** The `forEach` over the pads inside the tick: play, in pad order, every pad
      whose row is set at `step`. */
  method FireColumn(row: Grid, step: nat) returns (fired: seq<nat>)
    requires IsGrid(row) && step < Steps
    ensures fired == Fired(row, step)
  {
    fired := [];
    var padIndex := 0;
    while padIndex < Pads
      invariant 0 <= padIndex <= Pads
      invariant fired == FiredBelow(row, step, padIndex)
    {
      if row[padIndex][step] != 0 {
        fired := fired + [padIndex];
      }
      padIndex := padIndex + 1;
    }
  }

  /** Interval between ticks in milliseconds: `(60 / bpm / 2) * 1000`, an eighth note. */
  function StepDurationMs(bpm: int): (ms: real)
    requires bpm > 0
    ensures ms * (bpm as real) == 30000.0
    ensures MinBpm <= bpm <= MaxBpm ==> 150.0 <= ms <= 750.0
  {
    (60.0 / (bpm as real) / 2.0) * 1000.0
  }

  /** A named template: pattern plus tempo. */
  datatype Preset = Preset(name: string, description: string, bpm: int, pattern: Grid)

  const Heartbeat: Preset := Preset("Heartbeat", "Grounding 60 BPM", 60, [
    [1, 0, 0, 0, 0, 0, 0, 0],
    [0, 0, 0, 0, 1, 0, 0, 0],
    [0, 0, 0, 0, 0, 0, 0, 0],
    [0, 0, 0, 0, 0, 0, 0, 0],
    [0, 0, 0, 0, 0, 0, 0, 0],
    [0, 0, 0, 0, 0, 0, 0, 0],
    [0, 0, 0, 0, 0, 0, 0, 0],
    [0, 0, 0, 0, 0, 0, 0, 0]])

  const JourneyPreset: Preset := Preset("Journey", "Shamanic 120 BPM", 120, [
    [1, 0, 0, 0, 1, 0, 0, 0],
    [0, 0, 1, 0, 0, 0, 1, 0],
    [0, 0, 0, 0, 0, 0, 0, 0],
    [0, 0, 0, 0, 0, 0, 0, 0],
    [1, 1, 1, 1, 1, 1, 1, 1],
    [0, 0, 0, 0, 0, 0, 0, 0],
    [1, 0, 1, 0, 1, 0, 1, 0],
    [0, 0, 0, 1, 0, 0, 0, 1]])

  const Trance: Preset := Preset("Trance", "Deep journey 180 BPM", 180, [
    [1, 0, 1, 0, 1, 0, 1, 0],
    [0, 0, 0, 0, 0, 0, 0, 0],
    [0, 0, 0, 0, 0, 0, 0, 0],
    [0, 0, 0, 0, 0, 0, 0, 0],
    [1, 1, 1, 1, 1, 1, 1, 1],
    [0, 0, 0, 0, 1, 0, 0, 0],
    [1, 0, 0, 1, 0, 0, 1, 0],
    [0, 1, 0, 0, 0, 1, 0, 0]])

  const Presets: seq<Preset> := [Heartbeat, JourneyPreset, Trance]

  predicate ValidPreset(p: Preset)
  {
    IsPattern(p.pattern) && MinBpm <= p.bpm <= MaxBpm
  }

  /** Every preset is an 8 x 8 pattern of 0s and 1s with a tempo the slider allows. */
  lemma PresetsValid()
    ensures forall p :: p in Presets ==> ValidPreset(p)
  {
    assert ValidPreset(Heartbeat);
    assert ValidPreset(JourneyPreset);
    assert ValidPreset(Trance);
  }

  /** A strictly increasing sequence drawn from a set is no longer than the set. */
  lemma {:induction false} IncreasingWithin(r: seq<nat>, bound: set<nat>)
    requires forall k, l :: 0 <= k < l < |r| ==> r[k] < r[l]
    requires forall x :: x in r ==> x in bound
    ensures |r| <= |bound|
  {
    if r != [] {
      var rest := r[1..];
      forall x | x in rest ensures x in bound - {r[0]} {
        var k :| 0 <= k < |rest| && rest[k] == x;
        assert r[k + 1] == x;
      }
      IncreasingWithin(rest, bound - {r[0]});
    }
  }

  /** A tick on a column where only pad `p` is set fires exactly `[p]`. */
  lemma FiredOnly(g: Grid, step: nat, p: nat)
    requires IsGrid(g) && step < Steps && p < Pads
    requires forall i :: 0 <= i < Pads ==> (g[i][step] != 0 <==> i == p)
    ensures Fired(g, step) == [p]
  {
    var r := Fired(g, step);
    assert p in r;
    assert forall k :: 0 <= k < |r| ==> r[k] == p by {
      forall k | 0 <= k < |r| ensures r[k] == p {
        assert r[k] in r;
      }
    }
    IncreasingWithin(r, {p});
  }

  /** A tick on an empty column fires nothing. */
  lemma FiredNone(g: Grid, step: nat)
    requires IsGrid(g) && step < Steps
    requires forall i :: 0 <= i < Pads ==> g[i][step] == 0
    ensures Fired(g, step) == []
  {
    var r := Fired(g, step);
    IncreasingWithin(r, {});
  }

  /** The fired pads of `n` successive ticks of a running pattern, from `step`. */
  function TickRun(g: Grid, step: nat, n: nat): (r: seq<seq<nat>>)
    requires IsGrid(g) && step < Steps
    ensures |r| == n
    ensures forall k :: 0 <= k < n ==> r[k] == Fired(g, StepAfter(step, k + 1))
  {
    StepAfterWraps(step, n);
    if n == 0 then [] else TickRun(g, step, n - 1) + [Fired(g, StepAfter(step, n))]
  }

  /** One measure from rest sounds columns 1 to 7 and then column 0: the first
      column of a pattern is heard last. */
  lemma {:induction false} MeasureFromRest(g: Grid, cols: seq<seq<nat>>)
    requires IsGrid(g) && |cols| == Steps
    requires forall s :: 0 <= s < Steps ==> Fired(g, s) == cols[s]
    ensures TickRun(g, 0, Steps) == cols[1..] + [cols[0]]
  {
    var expected := cols[1..] + [cols[0]];
    forall k | 0 <= k < Steps ensures Fired(g, StepAfter(0, k + 1)) == expected[k] {
      StepAfterWraps(0, k + 1);
    }
    TickRunIs(g, 0, expected);
  }

  /** A run of ticks is determined by what each tick fires. */
  lemma TickRunIs(g: Grid, step: nat, expected: seq<seq<nat>>)
    requires IsGrid(g) && step < Steps
    requires forall k :: 0 <= k < |expected| ==> Fired(g, StepAfter(step, k + 1)) == expected[k]
    ensures TickRun(g, step, |expected|) == expected
  {
  }

  /** The two cells Heartbeat sets: the bass on step 0 and the snare on step 4. */
  predicate HeartbeatCells(g: Grid)
    requires IsGrid(g)
  {
    forall i, j :: 0 <= i < Pads && 0 <= j < Steps ==> (g[i][j] != 0 <==> (i == 0 && j == 0) || (i == 1 && j == 4))
  }

  /** Heartbeat started from rest: over one measure the snare (pad 1) sounds on the
      fourth tick and the bass (pad 0) only on the eighth, when the cursor wraps to 0. */
  lemma HeartbeatMeasure(g: Grid)
    requires g == Heartbeat.pattern
    ensures IsGrid(g)
    ensures TickRun(g, 0, 8) == [[], [], [], [1], [], [], [], [0]]
  {
    assert IsGrid(g) && HeartbeatCells(g);
    HeartbeatCellsMeasure(g);
  }

  /** Any grid with exactly the Heartbeat cells sounds that measure. */
  lemma HeartbeatCellsMeasure(g: Grid)
    requires IsGrid(g) && HeartbeatCells(g)
    ensures TickRun(g, 0, 8) == [[], [], [], [1], [], [], [], [0]]
  {
    var cols: seq<seq<nat>> := [[0], [], [], [], [1], [], [], []];
    forall s | 0 <= s < Steps ensures Fired(g, s) == cols[s] {
      if s == 0 {
        FiredOnly(g, 0, 0);
      } else if s == 4 {
        FiredOnly(g, 4, 1);
      } else {
        FiredNone(g, s);
      }
    }
    MeasureFromRest(g, cols);
  }

  /** ASCII upper-casing, the part of `toUpperCase` that can produce a pad key. */
  function UpperAscii(s: string): (r: string)
    ensures |r| == |s|
    ensures forall i :: 0 <= i < |s| ==> !('a' <= r[i] <= 'z')
    ensures forall i :: 0 <= i < |s| && !('a' <= s[i] <= 'z') ==> r[i] == s[i]
    ensures forall i :: 0 <= i < |s| && 'a' <= s[i] <= 'z' ==> r[i] as int == s[i] as int - 32
  {
    seq(|s|, i requires 0 <= i < |s| =>
      if 'a' <= s[i] <= 'z' then ((s[i] as int) - ('a' as int) + ('A' as int)) as char else s[i])
  }

  /** The first pad at or after `from` whose trigger key equals `key`. */
  function FindPad(key: string, from: nat): (r: Option<nat>)
    requires from <= |DrumPads|
    ensures r.Some? ==> from <= r.value < |DrumPads| && [DrumPads[r.value].key] == key
    ensures r.Some? ==> forall i :: from <= i < r.value ==> [DrumPads[i].key] != key
    ensures r.None? <==> forall i :: from <= i < |DrumPads| ==> [DrumPads[i].key] != key
    decreases |DrumPads| - from
  {
    if from == |DrumPads| then None
    else if [DrumPads[from].key] == key then Some(from)
    else FindPad(key, from + 1)
  }

  /** `drumPads.find((d) => d.key === e.key.toUpperCase())`. */
  function PadForKey(key: string): (r: Option<nat>)
    ensures r.Some? <==> exists i :: 0 <= i < |DrumPads| && [DrumPads[i].key] == UpperAscii(key)
    ensures r.Some? ==> r.value < Pads && [DrumPads[r.value].key] == UpperAscii(key)
  {
    FindPad(UpperAscii(key), 0)
  }

  /** The eight trigger keys are pairwise distinct, so a key selects at most one
      pad, and each pad's key (in either case) selects exactly that pad. */
  lemma PadKeysSelectOnePad(i: nat)
    requires i < Pads
    ensures forall j, k :: 0 <= j < k < |DrumPads| ==> DrumPads[j].key != DrumPads[k].key
    ensures PadForKey([DrumPads[i].key]) == Some(i)
    ensures PadForKey([DrumPads[i].key + ('a' - 'A')]) == Some(i)
  {
    var upper := [DrumPads[i].key];
    var lower := [DrumPads[i].key + ('a' - 'A')];
    assert UpperAscii(upper) == upper;
    assert UpperAscii(lower) == upper;
  }

  /** What a key press does: play (at most) one pad and whether it toggles the transport. */
  datatype KeyEffect = KeyEffect(pad: Option<nat>, togglesTransport: bool)

  /** The keydown router: the upper-cased key selects a pad; the Space code toggles play. */
  function RouteKey(key: string, code: string): (e: KeyEffect)
    ensures e.togglesTransport <==> code == "Space"
    ensures e.pad.Some? ==> e.pad.value < Pads && [DrumPads[e.pad.value].key] == UpperAscii(key)
    ensures e.pad.None? ==> forall i :: 0 <= i < Pads ==> [DrumPads[i].key] != UpperAscii(key)
  {
    KeyEffect(PadForKey(key), code == "Space")
  }

  /** The space bar selects no pad: it only toggles the transport. */
  lemma SpaceOnlyToggles()
    ensures RouteKey(" ", "Space") == KeyEffect(None, true)
  {
    assert UpperAscii(" ") == " ";
  }

  /** A repeating timer: its browser id, the pattern it captured when it was
      created, and its period. */
  datatype Timer = Timer(id: nat, snapshot: Grid, periodMs: real)

  /** The timers left after `clearInterval(id)`. */
  function Cleared(timers: seq<Timer>, id: nat): (r: seq<Timer>)
    ensures forall t :: t in r <==> t in timers && t.id != id
    ensures |r| <= |timers|
  {
    if timers == [] then []
    else (if timers[0].id == id then [] else [timers[0]]) + Cleared(timers[1..], id)
  }

  /** The sequencer component's state. */
  class Sequencer {
    /** The pattern, pad x step. */
    var pattern: array2<int>
    var isPlaying: bool
    var bpm: int
    var currentStep: nat
    /** The repeating timers the browser holds for this component. */
    var timers: seq<Timer>
    /** The slot holding the id of the timer last started. */
    var intervalRef: Option<nat>
    /** The id the browser hands out next. */
    var nextTimerId: nat

    /** The pattern as a value. */
    function Grid(): (g: Grid)
      reads this`pattern, pattern
      requires pattern.Length0 == Pads && pattern.Length1 == Steps
      ensures IsGrid(g)
      ensures forall i, j :: 0 <= i < Pads && 0 <= j < Steps ==> g[i][j] == pattern[i, j]
    {
      var p := pattern;
      seq(Pads, i requires 0 <= i < Pads reads p =>
        seq(Steps, j requires 0 <= j < Steps reads p => p[i, j]))
    }

    ghost predicate Valid()
      reads this, pattern
    {
      && pattern.Length0 == Pads && pattern.Length1 == Steps
      && IsPattern(Grid())
      && MinBpm <= bpm <= MaxBpm
      && currentStep < Steps
      && 0 < nextTimerId
      && (forall t :: t in timers ==> 0 < t.id < nextTimerId)
      && (!isPlaying ==> currentStep == 0 && timers == [])
      && (isPlaying ==>
            && |timers| == 1
            && intervalRef == Some(timers[0].id)
            && IsPattern(timers[0].snapshot)
            && 150.0 <= timers[0].periodMs <= 750.0)
    }

    /** At most one timer is ever live, and one is live exactly while playing. */
    lemma AtMostOneTimer()
      requires Valid()
      ensures |timers| <= 1
      ensures isPlaying <==> |timers| == 1
    {
    }

    constructor ()
      ensures Valid() && fresh(pattern)
      ensures Grid() == EmptyGrid()
      ensures !isPlaying && bpm == InitialBpm && currentStep == 0 && timers == []
    {
      pattern := new int[Pads, Steps]((i, j) => 0);
      isPlaying := false;
      bpm := InitialBpm;
      currentStep := 0;
      timers := [];
      intervalRef := None;
      nextTimerId := 1;
      new;
      GridExt(Grid(), EmptyGrid());
    }

    /** `toggleCell`: flip one cell. A running timer keeps its own snapshot. */
    method ToggleCell(p: nat, s: nat)
      requires Valid() && p < Pads && s < Steps
      modifies pattern
      ensures Valid()
      ensures Grid() == Toggled(old(Grid()), p, s)
    {
      pattern[p, s] := if pattern[p, s] != 0 then 0 else 1;
      GridExt(Grid(), Toggled(old(Grid()), p, s));
    }

    /** `clearPattern`: install a fresh all-zero pattern. */
    method ClearPattern()
      requires Valid()
      modifies this
      ensures Valid() && fresh(pattern)
      ensures Grid() == EmptyGrid()
      ensures isPlaying == old(isPlaying) && bpm == old(bpm) && currentStep == old(currentStep)
      ensures timers == old(timers) && intervalRef == old(intervalRef) && nextTimerId == old(nextTimerId)
    {
      pattern := new int[Pads, Steps]((i, j) => 0);
      GridExt(Grid(), EmptyGrid());
    }

    /** `loadPreset`: replace pattern and tempo; the transport is left alone. */
    method LoadPreset(preset: Preset)
      requires Valid() && preset in Presets
      modifies this
      ensures Valid() && fresh(pattern)
      ensures Grid() == preset.pattern && bpm == preset.bpm
      ensures isPlaying == old(isPlaying) && currentStep == old(currentStep)
      ensures timers == old(timers) && intervalRef == old(intervalRef) && nextTimerId == old(nextTimerId)
    {
      PresetsValid();
      var g := preset.pattern;
      pattern := new int[Pads, Steps]((i, j) requires 0 <= i < Pads && 0 <= j < Steps => g[i][j]);
      bpm := preset.bpm;
      GridExt(Grid(), g);
    }

    /** The tempo slider's `onChange`; a running timer keeps its period. */
    method SetBpm(value: int)
      requires Valid() && MinBpm <= value <= MaxBpm
      modifies this`bpm
      ensures Valid() && bpm == value
    {
      bpm := value;
    }

    /** `togglePlay`: stop (clear the timer, reset the cursor) or start a timer that
        captures the current pattern and the period for the current tempo. */
    method TogglePlay()
      requires Valid()
      modifies this`isPlaying, this`currentStep, this`timers, this`intervalRef, this`nextTimerId
      ensures Valid()
      ensures isPlaying == !old(isPlaying)
      ensures old(isPlaying) ==> currentStep == 0 && timers == []
      ensures !old(isPlaying) ==>
        && currentStep == old(currentStep) == 0
        && timers == [Timer(old(nextTimerId), old(Grid()), StepDurationMs(bpm))]
    {
      if isPlaying {
        if intervalRef.Some? {
          timers := Cleared(timers, intervalRef.value);
        }
        isPlaying := false;
        currentStep := 0;
      } else {
        var snapshot := Grid();
        var period := StepDurationMs(bpm);
        var t := Timer(nextTimerId, snapshot, period);
        isPlaying := true;
        timers := timers + [t];
        intervalRef := Some(nextTimerId);
        nextTimerId := nextTimerId + 1;
      }
    }

    /** One firing of the live timer: advance the cursor and fire, in pad order, every
        pad whose row is set at the new step in the timer's snapshot. */
    method Tick() returns (fired: seq<nat>)
      requires Valid()
      modifies this`currentStep
      ensures Valid()
      ensures old(timers) == [] ==> fired == [] && currentStep == old(currentStep)
      ensures old(timers) != [] ==>
        && currentStep == NextStep(old(currentStep))
        && fired == Fired(timers[0].snapshot, currentStep)
    {
      fired := [];
      if timers == [] {
        return;
      }
      var nextStep := (currentStep + 1) % Steps;
      fired := FireColumn(timers[0].snapshot, nextStep);
      currentStep := nextStep;
    }

    /** The keydown handler: play the pad the key selects, then toggle the
        transport for the Space code. Returns the pads played. */
    method HandleKeyDown(key: string, code: string) returns (played: seq<nat>)
      requires Valid()
      modifies this`isPlaying, this`currentStep, this`timers, this`intervalRef, this`nextTimerId
      ensures Valid()
      ensures played == (match RouteKey(key, code).pad case Some(i) => [i] case None => [])
      ensures code == "Space" ==> isPlaying == !old(isPlaying)
      ensures code == "Space" && old(isPlaying) ==> currentStep == 0 && timers == []
      ensures code == "Space" && !old(isPlaying) ==>
        && currentStep == old(currentStep) == 0
        && timers == [Timer(old(nextTimerId), old(Grid()), StepDurationMs(bpm))]
      ensures code != "Space" ==>
        && isPlaying == old(isPlaying) && currentStep == old(currentStep)
        && timers == old(timers) && intervalRef == old(intervalRef) && nextTimerId == old(nextTimerId)
    {
      var drum := PadForKey(key);
      played := if drum.Some? then [drum.value] else [];
      if code == "Space" {
        TogglePlay();
      }
    }

    /** The unmount cleanup: clear the timer the slot names, so no tick follows. */
    method Unmount()
      requires Valid()
      modifies this`timers
      ensures timers == []
    {
      if intervalRef.Some? {
        timers := Cleared(timers, intervalRef.value);
      }
    }
  }
}
