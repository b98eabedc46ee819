# Speed-builder metronome: tempo curve, look-ahead scheduler and configuration store

This project models the core of a browser metronome whose tempo follows a
piecewise-linear curve through three control points A, B and C, and proves
properties of that model in Dafny.

- `types.dfy` (module `Types`): the shapes of the configuration: a tempo
  point `(bar, bpm)`, the tempo step `Bar | Cell`, and the beat types
  `High | Low | Mute`.
- `tempo_curve.dfy` (module `TempoCurve`): `bpmAtBar`, the tempo at a bar,
  and `buildTempoMap`, the table of tempos for bars 0 up to C's bar.
- `scheduler.dfy` (module `Scheduler`): the look-ahead scheduler. One beat
  is a pure step `Step` of a cursor (next beat time, beat in bar, current
  bar, visual bar). `Beats` and `AdvanceN` give the clicks and the cursor
  after n beats. The class `Engine` holds the transport state. Its `Tick`
  method is one firing of the interval timer. It drains the 0.1 s
  schedule-ahead window and returns the clicks it scheduled, each a time on
  the audio clock and the sample to play.
- `store.dfy` (module `MetronomeStore`): the configuration store. It holds
  the bpm/grid-row conversions, the grid positions of the points, and the
  beat toggle as pure functions. The class `Store` holds the configuration
  record. Its methods are the store's edits (update points, load a preset,
  toggle a beat, reset) and its two watchers. The watchers become explicit
  methods: `SyncPoints`, `FitPattern`, and `Flush`, which runs those whose
  watched values changed.

Numbers: bars, rows and beat counts are `int`. Tempos and audio times are
exact `real`s. `Math.round` is `floor(x + 0.5)`.

In these places the engine's code does something a reader might not
expect:
- Below point A the A–B line is extrapolated; there is no flat head
  (`ExtrapolatedHead`). The default points start at bar 1, so bar 0 plays at
  640/7 bpm, not 100 (`DefaultCurve`).
- One beat lasts `60 / bpm / 2` seconds.
- A bar always has 4 beats.
- The accented sample plays on beat 0 and the normal one on every other
  beat. The beat pattern, mute beats, `tempoStep` and `barsPerCell` are not
  consulted.
- A run that does not loop plays every bar up to and including C's bar. It
  stops when the next beat falls in a later bar.

The audio clock reading `ctx.currentTime` is a parameter `now` of each
tick. Starting a click source becomes appending an event to the tick's
result. Whether the two samples loaded is a parameter of `Start`.

## Model

| member | source | states |
|---|---|---|
| TempoCurve.Interpolate | src/composables/useMetronomeEngine.ts:35-41 | no contract of its own: the line through a segment; `InterpolateEnds`, `InterpolateLinear`, `InterpolateMonotone` and `InterpolateBetween` state that it is exact at its ends, linear in the bar, monotone and bounded by its end tempos |
| TempoCurve.SegmentWidth | src/composables/useMetronomeEngine.ts:36 | the divisor of a segment is never 0: it is the segment's width, or 1 when the width is 0 |
| TempoCurve.BpmAtBar | src/composables/useMetronomeEngine.ts:33-44 | no contract of its own: the tempo at a bar; its properties are the lemmas below, `BpmAtFirstPoint`, `RampFirstSegment`, `RampSecondSegment`, `FlatTail`, `ExtrapolatedHead` and the two zero-width lemmas |
| TempoCurve.BpmAtFirstPoint | src/composables/useMetronomeEngine.ts:35-37 | bar A plays exactly A's tempo whenever A is not after B, also when the A–B segment has zero width |
| TempoCurve.RampFirstSegment | src/composables/useMetronomeEngine.ts:35-37 | on an A–B segment of positive width, B's bar plays B's tempo; every bar from A to B plays a tempo between A's and B's; the tempo is monotone in the bar, in B's direction |
| TempoCurve.RampSecondSegment | src/composables/useMetronomeEngine.ts:39-41 | on a B–C segment of positive width, C's bar plays C's tempo; every bar after B up to C plays a tempo between B's and C's; the tempo is monotone in the bar |
| TempoCurve.FlatTail | src/composables/useMetronomeEngine.ts:39-43 | with B not after C, every bar after C plays exactly C's tempo |
| TempoCurve.ExtrapolatedHead | src/composables/useMetronomeEngine.ts:35-37 | a bar before A is not flat: it plays below A's tempo on a rising ramp and above it on a falling one |
| TempoCurve.ZeroWidthFirstSegment | src/composables/useMetronomeEngine.ts:35-41 | a zero-width A–B segment divides by 1: the shared bar plays A's tempo, and the next bar is already on the B–C line |
| TempoCurve.ZeroWidthSecondSegment | src/composables/useMetronomeEngine.ts:35-43 | a zero-width B–C segment: the shared bar plays B's tempo and the next bar C's |
| TempoCurve.InterpolateMonotone | src/composables/useMetronomeEngine.ts:36-37 | a segment line rises everywhere when its end point is higher, and falls everywhere when it is lower |
| TempoCurve.PlayableWhenPositive | src/composables/useMetronomeEngine.ts:33-44 | ordered points, positive tempos and a positive tempo at bar 0 give a positive tempo at every bar from 0 |
| TempoCurve.BuildTempoMap | src/composables/useMetronomeEngine.ts:46-54 | with fewer than three points the table is empty; otherwise it has C's bar + 1 entries (none if C's bar is negative), and entry i is the tempo at bar i |
| TempoCurve.ExampleCurve | src/composables/useMetronomeEngine.ts:33-44 | for A = (0, 100), B = (8, 160), C = (12, 130): bar 4 plays 130, bar 10 plays 145, bars 12 and 20 play 130 |
| TempoCurve.DefaultCurve | src/composables/useMetronomeEngine.ts:35-37 | for the default points (1, 100), (8, 160), (12, 130), bar 0 plays 640/7 bpm, and the curve is playable |
| Scheduler.BeatDuration | src/composables/useMetronomeEngine.ts:91 | one beat is positive and lasts half of 60 / bpm: duration × bpm = 30 |
| Scheduler.Event | src/composables/useMetronomeEngine.ts:93-98 | the click of a beat starts at the cursor's next beat time, and it uses the accented sample exactly on beat 0 |
| Scheduler.Step | src/composables/useMetronomeEngine.ts:90-109 | no contract of its own beyond a positive tempo at the current bar: one beat of the loop; `StepFacts` states what it does to the beat, the bar, the time and the visual bar |
| Scheduler.StepFacts | src/composables/useMetronomeEngine.ts:100-109 | one beat keeps the beat in 0..3; it moves to the next bar exactly when beat 3 rolls over to 0; time moves strictly forward; the visual bar changes only on beat 0, and then to the current bar |
| Scheduler.AdvanceClosedForm | src/composables/useMetronomeEngine.ts:100-109 | after n beats, the beat is (beat + n) mod 4 and the bar has moved on by (beat + n) div 4; the visual bar is the bar of the last beat 0 among them, or unchanged if there was none; time has moved forward |
| Scheduler.AdvanceN | src/composables/useMetronomeEngine.ts:82-110 | no contract of its own: the cursor after n iterations of the while loop; `AdvanceClosedForm` gives it in closed form |
| Scheduler.Beats | src/composables/useMetronomeEngine.ts:82-110 | the clicks of n iterations of the while loop, exactly n of them; `BeatsAt`, `BeatsAccent` and `BeatsSpacing` state what each click is |
| Scheduler.BeatsAt | src/composables/useMetronomeEngine.ts:90-109 | the k-th click of a run is the click of the cursor after k beats, and that bar's tempo is positive |
| Scheduler.BeatsAccent | src/composables/useMetronomeEngine.ts:94 | the k-th click uses the accented sample exactly when it falls on beat 0 of its bar |
| Scheduler.BeatsSpacing | src/composables/useMetronomeEngine.ts:90-104 | consecutive clicks are exactly one beat of the current bar's tempo (60 / bpm / 2) apart, so click times strictly increase |
| Scheduler.PlayableRun | src/composables/useMetronomeEngine.ts:90-91 | with a curve whose tempo is positive at every bar from 0, any number of beats from bar 0 on can be scheduled |
| Scheduler.TwoBarAccents | src/composables/useMetronomeEngine.ts:94-109 | eight beats from beat 0 (two bars) play high, low, low, low, high, low, low, low |
| Scheduler.Engine.constructor | src/composables/useMetronomeEngine.ts:11-13 | a new engine is stopped at bar 0 with no timer installed |
| Scheduler.Engine.Start | src/composables/useMetronomeEngine.ts:56-75 | without loaded samples nothing changes; otherwise the engine runs from bar 0 and beat 0 at the given clock time, with the given points and loop flag, and a timer installed |
| Scheduler.Engine.Stop | src/composables/useMetronomeEngine.ts:114-116 | the engine is no longer running; nothing else changes |
| Scheduler.Engine.ScheduleBeat | src/composables/useMetronomeEngine.ts:90-109 | schedules the click of the cursor (accented on beat 0) and advances the cursor by exactly one beat step, at a bar of positive tempo |
| Scheduler.Engine.Drain | src/composables/useMetronomeEngine.ts:82-110 | the clicks are the run of beats from the old cursor, and the new cursor is the cursor after them; beat and bar follow the closed form; every click starts before now + 0.1; unless looping, no click falls in a bar after C's; either the run is still going with the next beat at or after now + 0.1, or it has passed C's bar and stopped |
| Scheduler.Engine.Tick | src/composables/useMetronomeEngine.ts:76-111 | a tick with no timer installed does nothing; a tick that finds the engine stopped schedules nothing and uninstalls its timer; otherwise it drains the window as Drain states |
| MetronomeStore.Round | src/stores/useMetronomeStore.ts:53 | rounds to the nearest integer, halves upwards |
| MetronomeStore.BpmToRow | src/stores/useMetronomeStore.ts:53 | no contract of its own: the row of a tempo; `RowRoundTrip`, `BpmRoundTrip`, `BpmToRowNearest` and `BpmToRowAntitone` state that it inverts `RowToBpm`, picks the nearest row and is antitone |
| MetronomeStore.RowToBpm | src/stores/useMetronomeStore.ts:54 | no contract of its own: the tempo of a row; `RowRoundTrip` and `BpmRoundTrip` tie it to `BpmToRow` |
| MetronomeStore.RowRoundTrip | src/stores/useMetronomeStore.ts:53-54 | row r stands for 40 + (37 − r) × 5 bpm, and that tempo maps back to row r, for every integer row |
| MetronomeStore.BpmRoundTrip | src/stores/useMetronomeStore.ts:53-54 | a tempo that is a multiple of 5 maps to a row that stands for that same tempo |
| MetronomeStore.BpmToRowNearest | src/stores/useMetronomeStore.ts:42-54 | any tempo maps to the row whose tempo is nearest, within half a 5-bpm step |
| MetronomeStore.BpmToRowAntitone | src/stores/useMetronomeStore.ts:53 | a faster tempo never maps to a lower row (a larger row number) than a slower one |
| MetronomeStore.GridPoints | src/stores/useMetronomeStore.ts:134-139 | one grid point per control point, in order, with the column the point's bar and the row the point's tempo's row |
| MetronomeStore.GridPointsOnRows | src/stores/useMetronomeStore.ts:134-139 | points whose tempos are grid tempos are drawn on exactly those rows |
| MetronomeStore.NextBeat | src/stores/useMetronomeStore.ts:89-97 | no contract of its own: the next beat type of the toggle cycle; `NextBeatCycle` states that it always changes the beat and has period 3 |
| MetronomeStore.NextBeatCycle | src/stores/useMetronomeStore.ts:89-97 | toggling always changes a beat, and three toggles bring it back |
| MetronomeStore.Toggled | src/stores/useMetronomeStore.ts:88-103 | toggling keeps the length, moves slot `index` one step along high, low, mute, and leaves every other slot as it was; an index outside the pattern changes nothing |
| MetronomeStore.ToggledThrice | src/stores/useMetronomeStore.ts:88-103 | three toggles of the same slot restore the whole pattern |
| MetronomeStore.DefaultPattern | src/stores/useMetronomeStore.ts:82-84 | a generated pattern of n beats has length n, an accented first beat and normal beats after it |
| MetronomeStore.SliceTo | src/stores/useMetronomeStore.ts:147-149 | no contract of its own: `slice(0, end)`; `ResizedNegative` states its count-back behaviour for a negative end, and `ResizedFits` the cut for a non-negative one |
| MetronomeStore.Resized | src/stores/useMetronomeStore.ts:144-149 | no contract of its own: the pattern after the resize watcher; `ResizedFits`, `ResizedIdempotent` and `ResizedNegative` state its length, contents and idempotence |
| MetronomeStore.ResizedFits | src/stores/useMetronomeStore.ts:141-151 | resizing to a count from 0 on gives exactly that many beats, keeps the old beats that still fit, and adds normal beats after them |
| MetronomeStore.ResizedIdempotent | src/stores/useMetronomeStore.ts:141-151 | resizing twice to a count is resizing once, and a pattern of the right length is left alone |
| MetronomeStore.ResizedNegative | src/stores/useMetronomeStore.ts:147-149 | a negative count drops that many beats from the end, as `slice` does |
| MetronomeStore.PresetBeatsPerBar | src/stores/useMetronomeStore.ts:75 | the beat count loaded from a preset is never 0; a present non-zero count is kept, and a missing or zero one becomes 4 |
| MetronomeStore.Store.constructor | src/stores/useMetronomeStore.ts:21-37 | a new store holds the default configuration, with tempos and points in agreement |
| MetronomeStore.Store.UpdatePoints | src/stores/useMetronomeStore.ts:56-61 | the points become `p`, and the start, peak and end tempos become `p`'s three tempos; nothing else changes |
| MetronomeStore.Store.LoadPreset | src/stores/useMetronomeStore.ts:63-86 | an absent preset changes nothing; otherwise every field is copied; points stay when the preset has none; a missing or zero beat count becomes 4; a missing tempo step becomes cell; a missing pattern is generated for the beat count; a negative beat count with no pattern fails after the other fields are set |
| MetronomeStore.Store.ToggleBeat | src/stores/useMetronomeStore.ts:88-103 | the pattern becomes `Toggled(old pattern, index)`: slot `index` moves one step along high, low, mute and no other slot or field changes; an index outside the pattern leaves it as it was |
| MetronomeStore.Store.Reset | src/stores/useMetronomeStore.ts:105-122 | the configuration becomes the defaults: tempos 100/160/130, no stop at end, 2 bars per cell, 4 beats per bar, tempo step bar, points (1, 100), (8, 160), (12, 130), pattern high, low, low, low |
| MetronomeStore.Store.SyncPoints | src/stores/useMetronomeStore.ts:124-132 | afterwards the points' tempos equal the start, peak and end tempos; their bars are unchanged |
| MetronomeStore.Store.FitPattern | src/stores/useMetronomeStore.ts:141-151 | the pattern becomes the old pattern resized to the beat count |
| MetronomeStore.Store.Flush | src/stores/useMetronomeStore.ts:124-151 | the tempo watcher runs only if a tempo changed, and then the points agree with the tempos; the resize watcher runs only if the beat count changed; point bars never change |

## Left out

- Web Audio and fetching: creating the audio context, loading and decoding the samples, resuming a suspended context, and creating and connecting sources. Sample loading is a boolean parameter of `Start`. Starting a source is an event in `Tick`'s result.
- The interval timer itself: when it fires and how often. One firing is one `Tick` call, and `clearInterval` clears the `timerActive` flag.
- Scheduler.Engine.Tick: the audio clock is read once per tick (`now`). The source re-reads `ctx.currentTime` at each loop test, and the clock may advance during a tick.
- Scheduler.Engine.Start: requires a positive tempo at every bar from 0 that the run can schedule (`Playable`). With a tempo of 0 or less, the source's beat becomes infinite or negative, and a looping run may never leave the loop; IEEE infinities are not modelled.
- Scheduler.Engine.Start: calling start while a run is going creates a second interval timer in the source. The two timers share the running flag and the bar counters but keep separate time and beat. The model has a single timer, which a new start replaces.
- Vue and Pinia reactivity: `ref`, `reactive`, `computed`, `watch` and `defineStore`. The watchers are the methods `SyncPoints` and `FitPattern`, run by `Flush`; the caller passes the values they last saw.
- MetronomeStore.Store.UpdatePoints: the store keeps the caller's array, and the tempo watcher later writes into its point objects; the model copies values, so this aliasing is not modelled.
- MetronomeStore.Store.LoadPreset: the preset's points are assumed to be three, as the type declares. The `name` field of a preset is not read. Required numeric fields that are missing at run time would become undefined, which is not modelled.
- Reading and parsing the saved configuration from local storage when the store is created. It is I/O and untyped parsing.
- The store's transport fields (`isRunning`, `currentBar`, `visualBar`, `currentBpm`, `beatInBar`), which no store operation reads or writes, and the UI-only fields `dragging`, `temposColumnWidth` and `metronomeSectionPadding`.
- IEEE-754 doubles: tempos and times are exact reals, and rows, bars and beat counts are integers. A fractional or non-numeric beat count is not modelled.
- The build configuration (vite.config.ts): it has no logic.
