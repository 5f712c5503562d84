# Drumming-shaman site: verified model of its interactive logic

This project models the parts of the site that compute something:

- **Rhythm sequencer.** An 8 × 8 on/off pattern (pad × step) is held in an `array2<int>`. Alongside it are a play flag, a tempo and a step cursor. The transport runs on a repeating timer that captures the pattern and tempo when play starts. Each firing advances the cursor modulo 8 and plays every pad set at the new step, in pad order; playing a pad is modelled as emitting its index. The module also covers presets, clearing, and the keyboard router (pad keys and Space).
- **Guided journey.** A session moves through four stages: select, prepare, journey, complete. It has a play/pause flag and a one-second counter capped at 180 s; reaching the cap forces completion. A breathing loop cycles four phases of 4000/2000/4000/2000 ms, driven by an elapsed-time tick. The module also covers the `m:ss` clock format.
- **Themes.** The registry holds four palettes, the cycle order, the default theme, and the projection of a palette onto nine CSS custom properties. The theme hook covers:
  - loading and validating the stored choice;
  - the effect that writes the properties, the `data-theme` attribute and the stored choice;
  - `setTheme` and `cycleTheme`.
- **Particle field.** This covers the `#rrggbb` parser used to tint particles and the per-theme particle settings.
- **Events and venues.** Events covers the date badges cut out of an event's date string, the event-type colour switch, and two card styling rules. Venues covers the category filter over the venue table.

Timers and the clock become explicit events. For example, `Sequencer.Tick`, `Session.JourneyTick` and `Session.BreathTick(now)` are called by whoever drives the model. The browser's timer table is a sequence of `Timer` values. The key/value store and the root element's style are maps.

Three behaviours are modelled as the code has them:

- **The first tick sounds step 1.** Starting from rest, step 0 sounds only on the eighth tick (`RhythmGenerator.FirstColumnOnEighthTick`, `RhythmGenerator.MeasureFromRest`).
- **The Heartbeat preset sets cells (0,0) and (1,4):** the bass on step 0, the snare on step 4.
- **Resuming a paused journey restarts the breathing loop at phase 0.** The displayed phase keeps its old value until the loop next advances (`Journey.Session.TogglePlayPause`, `Journey.Session.BreathTick`).

## Model

| member | source | states |
|---|---|---|
| Themes.ParseId | src/lib/themes.ts:1 | a string names a theme exactly when it is one of the four keys, and the theme it names is written as that string |
| Themes.ParseIdName | src/lib/themes.ts:1 | every identifier's key string parses back to that identifier |
| Themes.GetTheme | src/lib/themes.ts:96-98 | `getTheme(id)` is the registry entry for `id` and carries `id` |
| Themes.OrderIndex | src/lib/themes.ts:92 | every identifier has a position in `themeOrder` holding it |
| Themes.RegistryWellFormed | src/lib/themes.ts:21-94 | every identifier is a registry key whose entry has that id; the order lists each identifier exactly once; the default is a key |
| Themes.CssVariables | src/lib/themes.ts:100-112 | each of the nine property names is a key of the record, and every key maps to the colour field of that name |
| Themes.CssVariablesProjection | src/lib/themes.ts:100-112 | a key is in the record exactly when it is one of the nine property names, and it maps to the colour field of that name |
| Themes.CssVariablesNineKeys | src/lib/themes.ts:100-112 | the record has exactly nine keys, the nine property names |
| Themes.CssEntriesListRecord | src/lib/themes.ts:100-112 | the nine (name, colour) pairs come in record order, with distinct names, each pair an entry of the record |
| Themes.PalettesAreHex | src/lib/themes.ts:28-87 | every colour of every palette is `#` and six hexadecimal digits |
| ParticleField.MatchHex | src/components/ui/ParticleField.tsx:74 | the regular expression matches exactly an optional `#` and six hex digits of either case, and yields those six digits |
| ParticleField.ParsePair | src/components/ui/ParticleField.tsx:77-79 | two hex digits parse to the byte whose high and low nibbles they denote |
| ParticleField.HexToRgb | src/components/ui/ParticleField.tsx:73-82 | a non-matching string gives white; a matching one gives the channels whose `#rrggbb` form is the matched digits in lower case |
| ParticleField.FormatHex | src/components/ui/ParticleField.tsx:73-82 | writing a colour as `#` and three two-digit pairs gives a valid hex colour (the parser's inverse) |
| ParticleField.HexRoundTrip | src/components/ui/ParticleField.tsx:74-80 | parsing a formatted colour gives the colour back |
| ParticleField.HexColorMatches | src/components/ui/ParticleField.tsx:74 | every `#rrggbb` string matches, so it never falls back to white |
| ParticleField.HashIsOptional | src/components/ui/ParticleField.tsx:74 | six characters parse the same with or without a leading `#` |
| ParticleField.CaseInsensitive | src/components/ui/ParticleField.tsx:74 | lower-casing a string does not change what it parses to |
| ParticleField.MixedCaseExample | src/components/ui/ParticleField.tsx:74-80 | `AbCdEf` and `#abcdef` both parse to (171, 205, 239) |
| ParticleField.ParticleConfig | src/components/ui/ParticleField.tsx:28-41 | every theme string gets a positive count and an ordered size range; glow is off exactly for earthy and modern |
| ParticleField.GlowingThemes | src/components/ui/ParticleField.tsx:28-41 | among the four themes glow is on exactly for mystical and dark, and the themes that draw connections (line 137) glow |
| ParticleField.ThemeTintsParse | src/components/ui/ParticleField.tsx:87-88 | each theme's primary and secondary colours parse as hex, never as the white fallback |
| RhythmGenerator.EmptyGrid | src/components/RhythmGenerator.tsx:93-95 | the initial and cleared pattern is 8 × 8 with every cell 0 |
| RhythmGenerator.Flip | src/components/RhythmGenerator.tsx:137 | `cell ? 0 : 1` yields 0 or 1, and swaps 0 and 1 |
| RhythmGenerator.Toggled | src/components/RhythmGenerator.tsx:134-140 | the toggled cell is flipped, every other cell is as it was, and a 0/1 pattern stays 0/1 |
| RhythmGenerator.ToggleTwice | src/components/RhythmGenerator.tsx:134-140 | toggling the same cell twice restores the pattern |
| RhythmGenerator.NextStep | src/components/RhythmGenerator.tsx:155 | the next step stays in [0, 7], counting up and wrapping from 7 to 0 |
| RhythmGenerator.StepAfterWraps | src/components/RhythmGenerator.tsx:155 | `n` ticks from `step` land on `(step + n) mod 8` |
| RhythmGenerator.FirstColumnOnEighthTick | src/components/RhythmGenerator.tsx:98 | from step 0 the first tick lands on step 1, and step 0 comes round only on the eighth tick |
| RhythmGenerator.FiredBelow | src/components/RhythmGenerator.tsx:158-162 | the pads below `n` set at a step, strictly increasing, and exactly those |
| RhythmGenerator.Fired | src/components/RhythmGenerator.tsx:158-162 | a tick fires exactly the pads whose row is set at the step, in pad order |
| RhythmGenerator.FireColumn | src/components/RhythmGenerator.tsx:158-162 | the loop over the pads yields exactly `Fired` of the snapshot at the step: the set pads, in pad order |
| RhythmGenerator.FiredOnly | src/components/RhythmGenerator.tsx:158-162 | a column with one set pad fires exactly that pad |
| RhythmGenerator.FiredNone | src/components/RhythmGenerator.tsx:158-162 | an empty column fires nothing |
| RhythmGenerator.StepDurationMs | src/components/RhythmGenerator.tsx:151 | the interval is 30000/bpm ms, between 150 and 750 ms for tempos the slider allows |
| RhythmGenerator.PresetsValid | src/components/RhythmGenerator.tsx:26-72 | every preset is an 8 × 8 pattern of 0s and 1s with a tempo in [40, 200] |
| RhythmGenerator.TickRun | src/components/RhythmGenerator.tsx:153-166 | the `k`-th of `n` successive ticks fires the pads set at the step `k + 1` ticks on |
| RhythmGenerator.MeasureFromRest | src/components/RhythmGenerator.tsx:153-166 | one measure from rest sounds columns 1 to 7 and then column 0 |
| RhythmGenerator.HeartbeatMeasure | src/components/RhythmGenerator.tsx:26-40 | Heartbeat from rest: the snare sounds on tick 4, the bass on tick 8, nothing else |
| RhythmGenerator.UpperAscii | src/components/RhythmGenerator.tsx:184 | `toUpperCase` on ASCII: no lower-case letter remains, each lower-case letter becomes its capital, every other character is kept |
| RhythmGenerator.FindPad | src/components/RhythmGenerator.tsx:185 | `find` returns the first pad whose key equals the given one, and nothing exactly when none does |
| RhythmGenerator.PadForKey | src/components/RhythmGenerator.tsx:184-185 | a key selects a pad exactly when its upper-cased form is some pad's key |
| RhythmGenerator.PadKeysSelectOnePad | src/components/RhythmGenerator.tsx:15-24 | the eight keys are distinct, and each pad's key, in either case, selects that pad |
| RhythmGenerator.RouteKey | src/components/RhythmGenerator.tsx:182-193 | the transport toggles exactly for the Space code; a selected pad's key matches the upper-cased key; otherwise no pad matches |
| RhythmGenerator.SpaceOnlyToggles | src/components/RhythmGenerator.tsx:189-192 | the space bar plays no pad and toggles the transport |
| RhythmGenerator.Cleared | src/components/RhythmGenerator.tsx:145 | `clearInterval(id)` removes exactly the timers with that id |
| RhythmGenerator.Sequencer.AtMostOneTimer | src/components/RhythmGenerator.tsx:143-168 | at most one interval is live, and one is live exactly while playing |
| RhythmGenerator.Sequencer.constructor | src/components/RhythmGenerator.tsx:93-98 | starts with an all-zero pattern, stopped, at 120 BPM, on step 0, with no timer |
| RhythmGenerator.Sequencer.ToggleCell | src/components/RhythmGenerator.tsx:134-140 | the pattern becomes `Toggled` of the old one; a running timer keeps its snapshot |
| RhythmGenerator.Sequencer.ClearPattern | src/components/RhythmGenerator.tsx:177-179 | a fresh all-zero pattern, everything else unchanged |
| RhythmGenerator.Sequencer.LoadPreset | src/components/RhythmGenerator.tsx:171-174 | the pattern and tempo become the preset's; the transport, cursor and timers are unchanged |
| RhythmGenerator.Sequencer.SetBpm | src/components/RhythmGenerator.tsx:322-327 | the tempo becomes the slider value; a running timer keeps its period |
| RhythmGenerator.Sequencer.TogglePlay | src/components/RhythmGenerator.tsx:143-168 | stopping clears the live timer and resets the cursor to 0; starting adds one timer holding the current pattern and the period for the current tempo |
| RhythmGenerator.Sequencer.Tick | src/components/RhythmGenerator.tsx:153-166 | with a live timer the cursor moves to the next step and the pads set there in the timer's snapshot fire in pad order; with none nothing happens |
| RhythmGenerator.Sequencer.HandleKeyDown | src/components/RhythmGenerator.tsx:182-193 | plays the pad the key routes to; for Space it stops (timer cleared, cursor 0) when playing and starts (one timer with the current pattern and period) when stopped, exactly as `TogglePlay` |
| RhythmGenerator.Sequencer.Unmount | src/components/RhythmGenerator.tsx:200-204 | the cleanup leaves no live timer |
| Journey.NatToString | src/app/journey/page.tsx:247 | a numeral has at least one digit and no leading zero |
| Journey.NatToStringValue | src/app/journey/page.tsx:247 | reading back a numeral gives the number |
| Journey.PadStart2 | src/app/journey/page.tsx:247 | `padStart(2, '0')` gives at least two digits with the same value |
| Journey.FormatTime | src/app/journey/page.tsx:244-248 | `m:ss` with the minutes `s div 60` before the colon and `s mod 60` in two digits after it, so `60 m + ss = s`; the minutes have no leading zero |
| Journey.FormatTimeRoundTrip | src/app/journey/page.tsx:244-248 | parsing a formatted time gives the seconds back |
| Journey.FormatTimeInjective | src/app/journey/page.tsx:244-248 | distinct times display differently |
| Journey.FormatTimeExamples | src/app/journey/page.tsx:164 | 180 s displays as `3:00`; also `0:59` and `10:05` |
| Journey.CounterTick | src/app/journey/page.tsx:201-208 | below the cap the counter counts up; at the cap it stays and completes; once complete nothing changes |
| Journey.CounterFromZero | src/app/journey/page.tsx:200-208 | from zero, `n` firings count `min(n, 180)` seconds, and completion comes with firing 181 |
| Journey.CounterBounded | src/app/journey/page.tsx:200-208 | a counter within the cap never exceeds it and never goes down |
| Journey.PhaseDuration | src/app/journey/page.tsx:170 | phases last 4000 ms (in, out) or 2000 ms (hold, rest) |
| Journey.NextPhase | src/app/journey/page.tsx:181 | the next phase is a different phase in [0, 3], wrapping after the fourth |
| Journey.BreathProgress | src/app/journey/page.tsx:177 | progress is at most 1, not negative for non-negative elapsed time, 1 exactly once the phase is over, and otherwise elapsed / duration |
| Journey.BreathStep | src/app/journey/page.tsx:174-187 | the phase advances, restarting its clock at `now`, exactly when its duration has elapsed |
| Journey.BreathCycle | src/app/journey/page.tsx:170 | ticking at each boundary walks in, hold, out, rest in 12 s and returns to phase 0 |
| Journey.FourPhasesCycle | src/app/journey/page.tsx:181 | four advances return to the same phase |
| Journey.Session.constructor | src/app/journey/page.tsx:155-161 | starts on the select stage with no intention, not playing, with zero time, phase and progress |
| Journey.Session.SelectIntention | src/app/journey/page.tsx:306 | the clicked intention becomes the selection |
| Journey.Session.BeginJourney | src/app/journey/page.tsx:331-332 | without an intention nothing happens; with one the stage becomes prepare and the timeout is scheduled |
| Journey.Session.StartBreathing | src/app/journey/page.tsx:167-189 | the breathing loop restarts at phase 0 from `now` and shows zero progress |
| Journey.Session.PrepareElapsed | src/app/journey/page.tsx:221-224 | the pending timeout starts the journey playing and the breathing loop; otherwise nothing changes |
| Journey.Session.TogglePlayPause | src/app/journey/page.tsx:227-229 | flips playing; resuming restarts the loop at phase 0 and leaves the displayed phase as it was |
| Journey.Session.EndJourney | src/app/journey/page.tsx:231-234 | stops and completes, keeping the elapsed time |
| Journey.Session.ResetJourney | src/app/journey/page.tsx:236-242 | back to select with no intention and zero time, phase and progress |
| Journey.Session.JourneyTick | src/app/journey/page.tsx:197-209 | while running, the counter takes one `CounterTick`, completion stops play; otherwise nothing changes |
| Journey.Session.BreathTick | src/app/journey/page.tsx:174-187 | while running, progress is that of the loop's phase, the loop takes one `BreathStep`, and an advance is shown |
| UseTheme.GetItem | src/hooks/useTheme.ts:15 | the stored value of a key exactly when the store holds the key |
| UseTheme.AdoptsAsWritten | src/hooks/useTheme.ts:16 | the check as written adopts every registry key and rejects a missing or empty value |
| UseTheme.PrototypeNameAdopted | src/hooks/useTheme.ts:16 | the check as written adopts `constructor`, which names no theme |
| UseTheme.StoredTheme | src/hooks/useTheme.ts:15-18 | a stored value is adopted exactly when it is one of the registry's keys, as the theme it names |
| UseTheme.StoredThemeRejectsPrototypeNames | src/hooks/useTheme.ts:16 | the corrected check adopts what the written one does, less the inherited property names |
| UseTheme.LoadedTheme | src/hooks/useTheme.ts:13-19 | a valid stored choice becomes the theme; otherwise the theme is unchanged |
| UseTheme.PersistThenLoad | src/hooks/useTheme.ts:38 | writing a theme under the storage key and loading restores that theme |
| UseTheme.CycleOrderIsThemeOrder | src/hooks/useTheme.ts:46 | the order `cycleTheme` walks is the registry's `themeOrder` |
| UseTheme.IndexOf | src/hooks/useTheme.ts:47 | `indexOf` gives the first position holding the value, or -1 exactly when it is absent |
| UseTheme.CycleIndex | src/hooks/useTheme.ts:47 | every theme is found in the cycle order at its registry position |
| UseTheme.NextTheme | src/hooks/useTheme.ts:45-50 | the next theme is at position `(index + 1) mod 4` of `themeOrder` |
| UseTheme.NextThemes | src/hooks/useTheme.ts:46-49 | mystical, earthy, modern, dark, then mystical again |
| UseTheme.FourCyclesReturn | src/hooks/useTheme.ts:45-50 | four cycles return to the start, and one, two or three never do |
| UseTheme.EntriesMapIsCssVariables | src/hooks/useTheme.ts:30-32 | setting the nine properties one by one yields the `getCSSVariables` record |
| UseTheme.ThemeState.constructor | src/hooks/useTheme.ts:9-10 | starts on the default theme, not mounted |
| UseTheme.ThemeState.LoadEffect | src/hooks/useTheme.ts:13-19 | marks mounted and adopts the stored choice if valid |
| UseTheme.ThemeState.ApplyEffect | src/hooks/useTheme.ts:22-39 | once mounted, the style gains the theme's nine properties, `data-theme` is the id, and the id is stored; before mounting nothing changes |
| UseTheme.ThemeState.SetTheme | src/hooks/useTheme.ts:41-43 | the theme becomes the given one and nothing else changes |
| UseTheme.ThemeState.CycleTheme | src/hooks/useTheme.ts:45-50 | the theme becomes the next in the cycle |
| Events.Split | src/components/sections/Events.tsx:124 | `split` gives at least one piece, none holding the separator, more than one exactly when the separator occurs, the first a prefix |
| Events.SplitJoin | src/components/sections/Events.tsx:124 | joining the pieces with the separator gives the string back |
| Events.JoinSplit | src/components/sections/Events.tsx:130 | separator-free pieces are recovered by splitting their join |
| Events.Take | src/components/sections/Events.tsx:124 | `slice(0, n)` is the prefix of length `min(n, length)` |
| Events.RemoveFirst | src/components/sections/Events.tsx:130 | `replace(',', '')` drops exactly the first comma, or changes nothing without one |
| Events.RemoveFirstReinsert | src/components/sections/Events.tsx:130 | putting the comma back where it was restores the string |
| Events.MonthBadge | src/components/sections/Events.tsx:124 | the first three characters of the text before the first space (of the whole date without a space); so at most three characters, no space, a prefix of the date |
| Events.DayBadge | src/components/sections/Events.tsx:130 | no badge (the expression throws) exactly when the date has no space; the badge holds no space |
| Events.DateBadges | src/components/sections/Events.tsx:124-130 | for a date of three space-free words: the first three letters of the first, and the second less its first comma |
| Events.BadgesOf | src/components/sections/Events.tsx:124-130 | a `month day, year` date shows `day` and the month's first three letters |
| Events.EventBadges | src/components/sections/Events.tsx:13-33 | the three events show Feb/12, Feb/22-23 and Mar/1 |
| Events.TypeColor | src/components/sections/Events.tsx:47-58 | workshops use the secondary colour, circles the accent, and ceremonies and all other types the primary |
| Events.SpotsColor | src/components/sections/Events.tsx:200-203 | the accent colour below ten spots left, the muted text colour from ten up |
| Events.SpotsHighlightIffLow | src/components/sections/Events.tsx:200-203 | for every palette, the spots label is in the accent colour exactly when fewer than ten spots are left |
| Events.ReserveTextColor | src/components/sections/Events.tsx:214 | the reserve text is `#fff` exactly on the modern theme |
| Events.UpcomingEventStyles | src/components/sections/Events.tsx:9-40 | only the first event (8 spots) is highlighted, and the three types read primary, secondary and accent |
| Venues.Filter | src/app/venues/page.tsx:530 | an order-preserving subsequence with exactly the entries of the category: every result matches and no match is dropped, each venue kept as many times as it occurs |
| Venues.FilteredVenues | src/app/venues/page.tsx:527-530 | the `All` tab shows the table exactly; another tab shows the ordered subsequence of its category, each matching venue as often as in the table |
| Venues.ShowsEmptyState | src/app/venues/page.tsx:701 | the empty-state message shows on `All` exactly for an empty table, and on another tab exactly when no venue has its category |
| Venues.NoVenueIsAll | src/app/venues/page.tsx:23-206 | no venue has category `all`; each has one of the five other tabs' categories |
| Venues.VenueIdsDistinct | src/app/venues/page.tsx:695 | venue ids, used as list keys, are pairwise distinct |
| Venues.FilterPartition | src/app/venues/page.tsx:530 | for a table without `all`, the five category filters together have as many entries as the table |
| Venues.FilterEmptyIff | src/app/venues/page.tsx:530 | a category filters to nothing exactly when no entry has it |
| Venues.FilterKeeps | src/app/venues/page.tsx:530 | a category some entry has does not filter to nothing |
| Venues.EveryTabNonEmpty | src/app/venues/page.tsx:701 | over the venue table, no tab shows the empty-state message |
| Venues.CategoryTabsPartition | src/app/venues/page.tsx:208-215 | for any table without `all` (the venue table is one, by `NoVenueIsAll`), the five category tabs together list as many venues as the table |

## Left out

- Web Audio tone generation (oscillator, gain, audio context) is left out. A played pad is its emitted index.
- The 100 ms highlight of a played pad (`activePads`) is left out, because it is cosmetic timer plumbing.
- Wall-clock timing of `setInterval`, `setTimeout` and `Date.now` is left out. Timers are events the caller fires, and the clock is the `now` argument.
- The moon-phase widget is left out, because it rests on floating-point day arithmetic.
- Canvas particle motion, wrapping and line drawing are left out, because they are floating point, `Math.random` and canvas.
- The random audio intensity and the visualiser on the journey page are left out.
- DOM writes beyond the style map and the `data-theme` attribute are left out. The store is an abstract map.
- Presentation data is not modelled: intention titles and colours, phase labels and circle scales, category labels and icons, and venue and event fields other than those the logic reads.
- RhythmGenerator.UpperAscii: upper-cases ASCII letters only. JavaScript's `toUpperCase` also maps some other letters onto ASCII; `'ſ'` (U+017F) becomes `S`, so that key plays the Crash pad in the source and selects nothing in the model. The regular expression's `/i` flag without `u` folds no non-ASCII character onto a hex digit, so that half is exact.
- Events.Take: counts characters, while `slice` counts UTF-16 code units; the two differ only for characters outside the Basic Multilingual Plane, and every event date is ASCII.
- Step duration and breath progress are exact reals, not IEEE doubles.
- React's render and effect scheduling is not modelled. Each handler and effect is a method that reads the current state. After a change of theme or mounted flag, the caller runs `ApplyEffect`, as React does.
- The stage preconditions of the journey handlers stand for the page showing each button only on its stage. The prepare stage shows no buttons, so nothing cancels the pending timeout. Leaving the page is not modelled.
- RhythmGenerator.Sequencer.SetBpm: requires a value in [40, 200], because the range input only produces those values.
- Events.DayBadge: its own contract says only when a badge exists. The full value is stated for dates of three words (`Events.DateBadges`), which is the form every event's date has.
- RhythmGenerator.HeartbeatMeasure: takes the preset's pattern as an argument equal to `Heartbeat.pattern` instead of naming the constant in its contract. This keeps the proof small; the statement is the same.

## Findings

| source | as written | input that shows it | evidently intended | confidence | as-written member | corrected member |
|---|---|---|---|---|---|---|
| src/hooks/useTheme.ts:16 | `stored && themes[stored]` also accepts names every object inherits, such as `constructor`. The theme id then names no palette, and the apply effect reads `colors` of a function. | a stored value `constructor` | adopt the stored value only when it is one of the four theme keys | not executed | UseTheme.PrototypeNameAdopted | UseTheme.StoredThemeRejectsPrototypeNames |
