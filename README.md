# Interval trainer core in Dafny

This project models the core of a browser ear-training widget, the `IntervalTester` class of `script.js`. The widget plays two pitches a musical interval apart. The user guesses the interval's name, and the widget keeps a streak of correct guesses.

The model has five modules:

- `IntervalCatalog` (`catalog.dfy`) holds the table from the 15 interval names to semitone counts (0 to 12, three names for the tritone). It also holds the 13 names offered as guess buttons, which are also the pool a new test draws from. It computes an interval's frequency above a root, falling back to the root for a name that is not one of the table's own 15 keys (but see "## Left out" for names inherited from `Object.prototype`). It picks the test interval from a random draw in [0, 1) as `floor(draw * 13)`.
- `PlaybackScheduler` (`playback.dfy`) builds one request per note: frequency, start, time of peak gain, end of the fade-out, and oscillator stop. It also gives the gain envelope those times describe. It builds the two-note plan: in mode `"melodic"` one note after the other, in any other mode both together. It gives the busy timeout `total * 1000 + 200` ms.
- `TestSession` (`session.dfy`) holds the tester's state as a value. It has one step function per handler: play, replay, timer completion, guess click, the three settings inputs, and the audio unlock. `Run` folds any sequence of these events. The lemmas state what holds over every such sequence.
- `Tester` (`tester.dfy`) holds the `IntervalTester` class. Its fields are updated in place, one method per handler. Each method's postcondition gives its new state as a `TestSession` function of the old state: `Step` for the audio unlock and the three settings handlers, and the handler's own step function (`PlayTest`, `FinishPlayback`, `CheckAnswer`, `ClickGuess`, `UpdateStreaks` for the two counters) for the others. `Valid()` is the session invariant read off the fields.
- `Wrappers` (`wrappers.dfy`) holds `Option`.

Things the host supplies become parameters:

- `Math.pow(2, n / 12)` becomes the function `ratio`, a constant of the object given to its constructor.
- `Math.random()` becomes a draw in [0, 1).
- The audio clock (`audioCtx.currentTime`) becomes `now`.
- An audio context that drops notes becomes the flag `suspended`.
- The `setTimeout` callback becomes the method `FinishPlayback`, which the environment calls.
- Text parsed by `parseFloat` for the duration input becomes a `ParsedNumber`, either a number or NaN.

What `script.js` does, and therefore what the model does:

- It ignores an out-of-range note duration instead of clamping it (script.js:85-87).
- It has no interval toggling, no auto-advance after a correct guess, and no playback of a wrong guess.
- The selection pool is always the full list of 13 names (script.js:26).

## Model

| member | source | states |
|---|---|---|
| IntervalCatalog.IntervalMap | script.js:53-71 | every offset is in 0..12; Unison is 0 and is the only name at 0; Octave is 12; Tritone, Augmented 4th and Diminished 5th are all 6; every guessable name is a key |
| IntervalCatalog.RandomIndex | script.js:181 | `floor(draw * length)` is a valid index into the pool for every draw in [0, 1) |
| IntervalCatalog.SelectRandomInterval | script.js:179-183 | the selected name is in the pool and is a key of the table |
| IntervalCatalog.RandomIndexSlice | script.js:181 | a draw selects index i exactly when it lies in [i/13, (i+1)/13), so each name gets an equal slice of the draws |
| IntervalCatalog.EveryIntervalSelectable | script.js:179-183 | every pool name is selected by some draw |
| IntervalCatalog.IntervalFrequency | script.js:168-175 | a table name gives the root times the ratio of its offset; every result is the root or the root times the ratio of some offset in 0..12 |
| IntervalCatalog.UnknownNameIsRoot | script.js:168-172 | a name that is not in the table yields the root frequency unchanged |
| IntervalCatalog.RootOnlyForUnknownOrUnison | script.js:168-175 | when the ratio is 1 only at 0 semitones and the root is non-zero, the result equals the root exactly when the name is unknown or is Unison |
| IntervalCatalog.PoolNameUsesTable | script.js:18-26 | every pool or guess name is a table key with offset at most 12, so its frequency is root times the ratio of that offset and never the fallback |
| IntervalCatalog.OctaveDoublesRoot | script.js:173-174 | the octave is twice the root when the ratio of 12 semitones is 2 |
| IntervalCatalog.TritoneNamesAgree | script.js:62-64 | the three tritone names give the same frequency |
| PlaybackScheduler.PlayNote | script.js:148-166 | a note keeps its frequency and start; the gain peaks 0.01 s after the start; its envelope times are in increasing order for any non-negative duration; the fade-out ends 0.05 s and the oscillator stops 0.1 s after the nominal end |
| PlaybackScheduler.GainAt | script.js:155-157 | the envelope's gain stays within [0, 0.5] while the oscillator runs |
| PlaybackScheduler.AudibleBetweenStartAndFadeOut | script.js:154-165 | the gain is non-zero exactly strictly between the start and the end of the fade-out, and is 0.5 at the peak, so the note is silent when it starts and when it stops |
| PlaybackScheduler.Plan | script.js:236-245 | the plan is the root note at `now` and the interval note either at `now + d` (melodic) or at `now` (any other mode); both notes have duration d; the total is the last note's nominal end minus `now` |
| PlaybackScheduler.BusyTimeoutMs | script.js:251 | the busy time in seconds is the nominal play time plus a 0.2 s grace; it is never below 200 ms |
| PlaybackScheduler.PlanEndsBeforeBusyTimeout | script.js:247-251 | every note stops at least 0.1 s before the busy timeout fires, and the last note stops exactly then |
| TestSession.InitialSettings | script.js:16-25 | the page starts at root 261.63 Hz, 0.75 s notes (inside [0.1, 2.0]) and mode "melodic" |
| TestSession.Initial | script.js:9-14 | a new tester has audio locked, nothing playing, no test, nothing stored, both streaks 0, and the initial settings |
| TestSession.HasActiveTest | script.js:258 | JavaScript's truthiness test on the stored name: no name and the empty name are no test, every pool name is an active test |
| TestSession.AcceptDuration | script.js:83-88 | an in-range duration is taken as given; NaN or out-of-range input leaves the old value, never a clamped one; an in-range duration stays in range |
| TestSession.UpdateStreaks | script.js:276-289 | a correct guess adds exactly 1 to the streak; a wrong one resets it to 0 and keeps the best; the best becomes the larger of the old best and the new streak, so it never decreases and never falls below the streak |
| TestSession.Schedule | script.js:232-251 | the requested notes are the plan for the current mode and duration, or none when the audio context is suspended; the timer delay is the plan's busy timeout either way |
| TestSession.PlayTest | script.js:202-252 | nothing happens before audio is ready or while playing; a new test sets playing, stores a pool name and the pair (current root, its interval frequency), and schedules that pair; a replay with an empty store only reports; otherwise a replay sets playing and schedules the stored pair, changing nothing else |
| TestSession.FinishPlayback | script.js:248-251 | the timer clears the playing flag and changes nothing else |
| TestSession.CheckAnswer | script.js:254-274 | no effect while playing; without an active test only a message; a guess equal to the active name clears the test and updates the streaks as `UpdateStreaks` does for a correct guess (streak + 1, best = larger of old best and new streak); any other guess keeps the test and resets the streak, keeping the best |
| TestSession.ClickGuess | script.js:91-97 | a click reaches the judge only on a button, with an active test and nothing playing; otherwise nothing changes |
| TestSession.Step | script.js:74-113 | each handler keeps the invariant, never lowers the best streak, never unsets readiness, and changes the stored pair only on a new test; while playing, every event except the timer changes at most the settings |
| TestSession.Run | script.js:74-97 | after any sequence of events the invariant holds, the best streak has not decreased, and readiness has not been lost |
| TestSession.InitialIsValid | script.js:8-26 | the initial state satisfies the invariant, with audio not ready, nothing playing and no test |
| TestSession.BusyUntilTimerFires | script.js:202-205 | from a playing state, any events without the timer leave it playing, with the same test, stored pair and streaks |
| TestSession.StoredPairPersists | script.js:211-230 | any events without a new test leave the stored pair unchanged |
| TestSession.ReplayPlaysActiveInterval | script.js:219-228 | during an active test, a replay plays the stored root and the active interval above that root, whatever the root setting is now |
| TestSession.ReplayIsRepeatable | script.js:219-251 | replay, timer, replay at any clock reading ends in the same state with the same feedback and timer delay, and requests the same frequencies with every note time (start, peak, fade-out end, stop) at the same offset from its own clock reading |
| TestSession.ActiveTestIsPresentName | script.js:257-261 | under the invariant, the truthiness test on the stored name is the same as its presence |
| TestSession.ActiveTestIsAnswerable | script.js:119-127 | an active test has a guess button, and clicking that button is judged correct |
| Tester.IntervalTester.constructor | script.js:2-26 | the new object satisfies the invariant and is in the initial state |
| Tester.IntervalTester.UnlockAudioContext | script.js:100-114 | sets ready and changes nothing else |
| Tester.IntervalTester.PlayTest | script.js:202-252 | the new fields, the feedback and the requested playback are those of `TestSession.PlayTest` |
| Tester.IntervalTester.FinishPlayback | script.js:248-251 | the new fields are those of `TestSession.FinishPlayback` |
| Tester.IntervalTester.CheckAnswer | script.js:254-274 | the new fields and the feedback are those of `TestSession.CheckAnswer` |
| Tester.IntervalTester.UpdateStreaks | script.js:276-289 | the two counters become `TestSession.UpdateStreaks` of the old ones |
| Tester.IntervalTester.OnGuessClick | script.js:91-97 | the new fields and the feedback are those of `TestSession.ClickGuess` |
| Tester.IntervalTester.OnModeChange | script.js:81 | only the mode changes |
| Tester.IntervalTester.OnRootNoteChange | script.js:82 | only the root frequency changes |
| Tester.IntervalTester.OnDurationChange | script.js:83-88 | only the duration changes, and it becomes `AcceptDuration` of the old duration and the input |

## Left out

- DOM access and rendering are not modelled. This covers `renderGuessButtons`, `updateFeedback`, `toggleButtons` and the status and streak texts. Feedback is returned as a value (no feedback, an info message, correct, or incorrect). The guess buttons are modelled only by their names, which are the 13 guessable names.
- The Web Audio calls are not modelled: creating oscillators and gain nodes, `connect`, `start` and `stop`. The model returns the note requests they would receive.
- Floating point is not modelled. Frequencies, times and durations are exact reals, and `Math.pow(2, n / 12)` is the parameter `ratio`.
- UnlockAudioContext: `resume()` is asynchronous. The model sets the ready flag at once. It does not model the audio-context state that the handler tests first.
- The listener that unlocks audio fires only once. In the model the event may repeat, which changes nothing after the first time.
- The model assumes the timer and the audio clock measure the same time.
- `parseFloat` on the root-note select is modelled as a real value. The model assumes the root-note select yields numbers, so NaN is not modelled there.
- IntervalFrequency, UnknownNameIsRoot and RootOnlyForUnknownOrUnison: the model looks names up in the table's own 15 keys only. In JavaScript, `this.intervalMap[intervalName]` (script.js:169) also finds properties inherited from `Object.prototype`, such as "toString", "constructor", "valueOf", "hasOwnProperty" and "__proto__". For those names the test at line 170 fails and line 174 returns NaN, which is neither the root nor the root times a ratio. No caller passes such a name: a new test passes only pool names (script.js:213-215), all of which are own keys.
