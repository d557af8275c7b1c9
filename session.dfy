/**
  The test session of the interval trainer as values: the settings, the state
  the tester keeps between user actions, and one step function per action
  (the play and replay buttons, the playback timer, a guess, the settings
  inputs, the first click that unlocks audio). `Run` folds a sequence of such
  events; the lemmas state what holds over any such sequence.
*/
module TestSession {
  import opened Wrappers
  import opened IntervalCatalog
  import opened PlaybackScheduler

  /** Settings the user changes at any time; they take effect at the next playback. */
  datatype Settings = Settings(rootFrequency: real, noteDuration: real, mode: string)

  /** A number read from a text input: a value, or NaN when it does not parse. */
  datatype ParsedNumber = Number(value: real) | NaN

  /** Consecutive correct guesses, and the best run so far. */
  datatype Streaks = Streaks(current: nat, high: nat)

  datatype TesterState = TesterState(
    isReady: bool,
    isPlaying: bool,
    currentTestIntervalName: Option<string>,
    lastPlayedFrequencies: seq<real>,
    streaks: Streaks,
    settings: Settings)

  /** The informational messages the tester shows. */
  datatype InfoMessage = ListenCarefully | PlayNewTestFirst | Replaying | PlayIntervalFirst

  /** Which feedback an action shows, if any. */
  datatype Feedback = NoFeedback | Info(message: InfoMessage) | Correct | Incorrect

  /** The notes handed to the audio backend and the delay of the timer that ends the busy state. */
  datatype Playback = Playback(notes: seq<NoteRequest>, timeoutMs: real)

  datatype PlayResult = PlayResult(state: TesterState, feedback: Feedback, playback: Option<Playback>)

  datatype GuessResult = GuessResult(state: TesterState, feedback: Feedback)

  /** One user action or timer completion. */
  datatype Event =
    | AudioUnlocked
    | PlayClicked(random: real, now: real, suspended: bool)
    | ReplayClicked(now: real, suspended: bool)
    | PlaybackFinished
    | GuessClicked(button: Option<string>)
    | ModeChanged(mode: string)
    | RootNoteChanged(frequency: real)
    | DurationChanged(input: ParsedNumber)

  const MinNoteDuration: real := 0.1
  const MaxNoteDuration: real := 2.0

  /** The settings the page starts with: middle C, 0.75 s notes, melodic mode. */
  function InitialSettings(): (s: Settings)
    ensures MinNoteDuration <= s.noteDuration <= MaxNoteDuration
    ensures s.rootFrequency == 261.63 && s.noteDuration == 0.75 && s.mode == "melodic"
  {
    Settings(261.63, 0.75, "melodic")
  }

  /** The state a new tester starts in: audio locked, nothing playing, no test, nothing stored, no streak. */
  function Initial(): (s: TesterState)
    ensures !s.isReady && !s.isPlaying && s.currentTestIntervalName == None
    ensures s.lastPlayedFrequencies == [] && s.streaks == Streaks(0, 0)
    ensures s.settings == InitialSettings()
  {
    TesterState(false, false, None, [], Streaks(0, 0), InitialSettings())
  }

  /**
    What every reachable state satisfies: the streak never exceeds the best
    streak, the duration is in range, playback only happens once audio is
    ready, the stored pair is empty or a (root, interval) pair, and an active
    test is a pool name whose frequency above the stored root is the stored
    interval frequency.
  */
  ghost predicate Inv(ratio: nat -> real, s: TesterState)
  {
    && s.streaks.current <= s.streaks.high
    && MinNoteDuration <= s.settings.noteDuration <= MaxNoteDuration
    && (s.isPlaying ==> s.isReady)
    && (|s.lastPlayedFrequencies| == 0 || |s.lastPlayedFrequencies| == 2)
    && (s.currentTestIntervalName.Some? ==>
          && s.currentTestIntervalName.value in IntervalsInUse
          && |s.lastPlayedFrequencies| == 2
          && s.lastPlayedFrequencies[1]
             == IntervalFrequency(ratio, s.lastPlayedFrequencies[0], s.currentTestIntervalName.value))
  }

  /**
    A test is active when JavaScript's truthiness test on
    `currentTestIntervalName` passes: null and the empty string are falsy,
    every pool name is truthy.
  */
  predicate HasActiveTest(s: TesterState): (b: bool)
    ensures s.currentTestIntervalName == None ==> !b
    ensures s.currentTestIntervalName == Some("") ==> !b
    ensures s.currentTestIntervalName.Some? && s.currentTestIntervalName.value in Intervals ==> b
  {
    s.currentTestIntervalName.Some? && s.currentTestIntervalName.value != ""
  }

  /** The new duration after the duration input reports `input`: only values in range are taken. */
  function AcceptDuration(current: real, input: ParsedNumber): (d: real)
    ensures MinNoteDuration <= current <= MaxNoteDuration ==> MinNoteDuration <= d <= MaxNoteDuration
    ensures d == current || input == Number(d)
    ensures input.Number? && MinNoteDuration <= input.value <= MaxNoteDuration ==> d == input.value
    ensures input.NaN? || input.value < MinNoteDuration || input.value > MaxNoteDuration ==> d == current
  {
    match input
    case Number(v) => if v >= MinNoteDuration && v <= MaxNoteDuration then v else current
    case NaN => current
  }

  /** The streaks after a judged guess. */
  function UpdateStreaks(s: Streaks, isAnsweredCorrectly: bool): (r: Streaks)
    ensures isAnsweredCorrectly ==> r.current == s.current + 1
    ensures !isAnsweredCorrectly ==> r.current == 0 && r.high == s.high
    ensures r.high == if r.current > s.high then r.current else s.high
    ensures s.high <= r.high && r.current <= r.high
  {
    if isAnsweredCorrectly then
      var current := s.current + 1;
      Streaks(current, if current > s.high then current else s.high)
    else
      Streaks(0, s.high)
  }

  /** The request handed to the backend for a pair, with the mode and duration read now. */
  function Schedule(rootFrequency: real, intervalFrequency: real, settings: Settings, now: real,
                    suspended: bool): (p: Playback)
    ensures suspended ==> p.notes == []
    ensures !suspended ==>
      p.notes == Plan(rootFrequency, intervalFrequency, settings.mode, settings.noteDuration, now).notes
    ensures p.timeoutMs
      == BusyTimeoutMs(Plan(rootFrequency, intervalFrequency, settings.mode, settings.noteDuration, now).totalPlayTime)
  {
    var plan := Plan(rootFrequency, intervalFrequency, settings.mode, settings.noteDuration, now);
    Playback(if suspended then [] else plan.notes, BusyTimeoutMs(plan.totalPlayTime))
  }

  /**
    The play button (`isNewTest`) or the replay button. Nothing happens before
    audio is ready or while a playback runs. A new test draws a pool name and
    stores the pair (current root, its interval frequency); a replay plays the
    stored pair and changes nothing stored, or does nothing but report when
    nothing was stored yet.
  */
  function PlayTest(ratio: nat -> real, s: TesterState, isNewTest: bool, random: real, now: real,
                    suspended: bool): (r: PlayResult)
    requires Inv(ratio, s)
    requires 0.0 <= random < 1.0
    ensures Inv(ratio, r.state)
    ensures !s.isReady || s.isPlaying ==> r == PlayResult(s, NoFeedback, None)
    ensures s.isReady && !s.isPlaying && isNewTest ==>
      && r.state.isPlaying
      && r.state.currentTestIntervalName == Some(SelectRandomInterval(random))
      && r.state.currentTestIntervalName.value in IntervalsInUse
      && r.state.lastPlayedFrequencies
         == [s.settings.rootFrequency,
             IntervalFrequency(ratio, s.settings.rootFrequency, r.state.currentTestIntervalName.value)]
      && r.state.isReady && r.state.streaks == s.streaks && r.state.settings == s.settings
      && r.feedback == Info(ListenCarefully)
      && r.playback == Some(Schedule(r.state.lastPlayedFrequencies[0], r.state.lastPlayedFrequencies[1],
                                     s.settings, now, suspended))
    ensures s.isReady && !s.isPlaying && !isNewTest && s.lastPlayedFrequencies == [] ==>
      r == PlayResult(s, Info(PlayNewTestFirst), None)
    ensures s.isReady && !s.isPlaying && !isNewTest && s.lastPlayedFrequencies != [] ==>
      && r.state == s.(isPlaying := true)
      && r.feedback == Info(Replaying)
      && r.playback == Some(Schedule(s.lastPlayedFrequencies[0], s.lastPlayedFrequencies[1],
                                     s.settings, now, suspended))
  {
    if !s.isReady || s.isPlaying then
      PlayResult(s, NoFeedback, None)
    else if isNewTest then
      var name := SelectRandomInterval(random);
      var rootFrequency := s.settings.rootFrequency;
      var intervalFrequency := IntervalFrequency(ratio, rootFrequency, name);
      var s' := s.(isPlaying := true, currentTestIntervalName := Some(name),
                   lastPlayedFrequencies := [rootFrequency, intervalFrequency]);
      PlayResult(s', Info(ListenCarefully),
                 Some(Schedule(rootFrequency, intervalFrequency, s.settings, now, suspended)))
    else if |s.lastPlayedFrequencies| == 0 then
      PlayResult(s, Info(PlayNewTestFirst), None)
    else
      PlayResult(s.(isPlaying := true), Info(Replaying),
                 Some(Schedule(s.lastPlayedFrequencies[0], s.lastPlayedFrequencies[1],
                               s.settings, now, suspended)))
  }

  /** The playback timer fires: the tester is no longer busy, and nothing else changes. */
  function FinishPlayback(s: TesterState): (r: TesterState)
    ensures !r.isPlaying
    ensures r.(isPlaying := s.isPlaying) == s
  {
    s.(isPlaying := false)
  }

  /**
    Judge `guess` against the active test by exact string equality. Ignored
    while playing; without an active test only a message is shown. A correct
    guess ends the test and extends the streak; a wrong one keeps the test
    and resets the streak.
  */
  function CheckAnswer(s: TesterState, guess: string): (r: GuessResult)
    ensures s.isPlaying ==> r == GuessResult(s, NoFeedback)
    ensures !s.isPlaying && !HasActiveTest(s) ==> r == GuessResult(s, Info(PlayIntervalFirst))
    ensures !s.isPlaying && HasActiveTest(s) && guess == s.currentTestIntervalName.value ==>
      && r.feedback == Correct
      && r.state.currentTestIntervalName == None
      && r.state.streaks == UpdateStreaks(s.streaks, true)
      && r.state == s.(currentTestIntervalName := None, streaks := r.state.streaks)
    ensures !s.isPlaying && HasActiveTest(s) && guess != s.currentTestIntervalName.value ==>
      && r.feedback == Incorrect
      && r.state == s.(streaks := Streaks(0, s.streaks.high))
  {
    if s.isPlaying then
      GuessResult(s, NoFeedback)
    else if !HasActiveTest(s) then
      GuessResult(s, Info(PlayIntervalFirst))
    else
      var isAnsweredCorrectly := guess == s.currentTestIntervalName.value;
      var s' := if isAnsweredCorrectly then s.(currentTestIntervalName := None) else s;
      GuessResult(s'.(streaks := UpdateStreaks(s.streaks, isAnsweredCorrectly)),
                  if isAnsweredCorrectly then Correct else Incorrect)
  }

  /** A click in the guess grid reaches the judge only on a button, with a test active and nothing playing. */
  function ClickGuess(s: TesterState, button: Option<string>): (r: GuessResult)
    ensures button.None? || !HasActiveTest(s) || s.isPlaying ==> r == GuessResult(s, NoFeedback)
    ensures button.Some? && HasActiveTest(s) && !s.isPlaying ==> r == CheckAnswer(s, button.value)
  {
    if button.Some? && HasActiveTest(s) && !s.isPlaying then CheckAnswer(s, button.value)
    else GuessResult(s, NoFeedback)
  }

  /** Events the environment can produce: draws lie in [0, 1) and buttons carry guessable names. */
  predicate ValidEvent(e: Event)
  {
    match e
    case PlayClicked(random, _, _) => 0.0 <= random < 1.0
    case GuessClicked(button) => button.Some? ==> button.value in Intervals
    case _ => true
  }

  /** The state after one event. */
  function Step(ratio: nat -> real, s: TesterState, e: Event): (r: TesterState)
    requires Inv(ratio, s) && ValidEvent(e)
    ensures Inv(ratio, r)
    ensures s.streaks.high <= r.streaks.high
    ensures s.isReady ==> r.isReady
    ensures !e.PlayClicked? ==> r.lastPlayedFrequencies == s.lastPlayedFrequencies
    ensures s.isPlaying && !e.PlaybackFinished? ==>
      r == s.(settings := r.settings)
  {
    match e
    case AudioUnlocked => s.(isReady := true)
    case PlayClicked(random, now, suspended) => PlayTest(ratio, s, true, random, now, suspended).state
    case ReplayClicked(now, suspended) => PlayTest(ratio, s, false, 0.0, now, suspended).state
    case PlaybackFinished => FinishPlayback(s)
    case GuessClicked(button) => ClickGuess(s, button).state
    case ModeChanged(mode) => s.(settings := s.settings.(mode := mode))
    case RootNoteChanged(frequency) => s.(settings := s.settings.(rootFrequency := frequency))
    case DurationChanged(input) =>
      s.(settings := s.settings.(noteDuration := AcceptDuration(s.settings.noteDuration, input)))
  }

  predicate AllValid(events: seq<Event>)
  {
    forall i :: 0 <= i < |events| ==> ValidEvent(events[i])
  }

  /** The state after a sequence of events, in order. */
  function Run(ratio: nat -> real, s: TesterState, events: seq<Event>): (r: TesterState)
    requires Inv(ratio, s) && AllValid(events)
    ensures Inv(ratio, r)
    ensures s.streaks.high <= r.streaks.high
    ensures s.isReady ==> r.isReady
    decreases |events|
  {
    if events == [] then s
    else Run(ratio, Step(ratio, s, events[0]), events[1..])
  }

  /** The initial state satisfies the invariant, so every state reachable from it does. */
  lemma InitialIsValid(ratio: nat -> real)
    ensures Inv(ratio, Initial())
    ensures !Initial().isReady && !Initial().isPlaying && Initial().currentTestIntervalName == None
  {
  }

  /**
    Once playing, the tester stays playing and keeps its test, stored pair
    and streaks, whatever else happens, until the playback timer fires.
  */
  lemma {:induction false} BusyUntilTimerFires(ratio: nat -> real, s: TesterState, events: seq<Event>)
    requires Inv(ratio, s) && AllValid(events) && s.isPlaying
    requires forall i :: 0 <= i < |events| ==> !events[i].PlaybackFinished?
    decreases |events|
    ensures var r := Run(ratio, s, events);
      && r.isPlaying
      && r.currentTestIntervalName == s.currentTestIntervalName
      && r.lastPlayedFrequencies == s.lastPlayedFrequencies
      && r.streaks == s.streaks
  {
    if events != [] {
      var s1 := Step(ratio, s, events[0]);
      assert AllValid(events[1..]) by {
        forall i | 0 <= i < |events[1..]| ensures ValidEvent(events[1..][i]) {
          assert events[1..][i] == events[i + 1];
        }
      }
      BusyUntilTimerFires(ratio, s1, events[1..]);
    }
  }

  /**
    The stored pair survives every event but a new test: replays, guesses,
    timers and settings changes all leave it as it was.
  */
  lemma {:induction false} StoredPairPersists(ratio: nat -> real, s: TesterState, events: seq<Event>)
    requires Inv(ratio, s) && AllValid(events)
    requires forall i :: 0 <= i < |events| ==> !events[i].PlayClicked?
    decreases |events|
    ensures Run(ratio, s, events).lastPlayedFrequencies == s.lastPlayedFrequencies
  {
    if events != [] {
      var s1 := Step(ratio, s, events[0]);
      assert AllValid(events[1..]) by {
        forall i | 0 <= i < |events[1..]| ensures ValidEvent(events[1..][i]) {
          assert events[1..][i] == events[i + 1];
        }
      }
      StoredPairPersists(ratio, s1, events[1..]);
    }
  }

  /**
    A replay during an active test plays the root it was started on and the
    active interval above that root, whatever the root setting is now.
  */
  lemma ReplayPlaysActiveInterval(ratio: nat -> real, s: TesterState, now: real)
    requires Inv(ratio, s) && s.isReady && !s.isPlaying && s.currentTestIntervalName.Some?
    ensures var r := PlayTest(ratio, s, false, 0.0, now, false);
      var root := s.lastPlayedFrequencies[0];
      && r.playback.Some?
      && |r.playback.value.notes| == 2
      && r.playback.value.notes[0].frequency == root
      && r.playback.value.notes[1].frequency == IntervalFrequency(ratio, root, s.currentTestIntervalName.value)
  {
  }

  /**
    Replaying, letting the timer fire and replaying again, at whatever
    clock reading, ends in the same state with the same feedback and timer
    delay, and requests the same notes shifted to the new clock reading.
  */
  lemma ReplayIsRepeatable(ratio: nat -> real, s: TesterState, now1: real, now2: real, suspended: bool)
    requires Inv(ratio, s) && s.isReady && !s.isPlaying && s.lastPlayedFrequencies != []
    ensures var r1 := PlayTest(ratio, s, false, 0.0, now1, suspended);
      var r2 := PlayTest(ratio, FinishPlayback(r1.state), false, 0.0, now2, suspended);
      && FinishPlayback(r1.state) == s
      && r1.state == r2.state
      && r1.feedback == r2.feedback
      && r1.playback.Some? && r2.playback.Some?
      && r1.playback.value.timeoutMs == r2.playback.value.timeoutMs
      && |r1.playback.value.notes| == |r2.playback.value.notes|
      && forall k :: 0 <= k < |r1.playback.value.notes| ==>
           var n1 := r1.playback.value.notes[k];
           var n2 := r2.playback.value.notes[k];
           && n1.frequency == n2.frequency
           && n1.startTime - now1 == n2.startTime - now2
           && n1.peakTime - now1 == n2.peakTime - now2
           && n1.fadeOutEnd - now1 == n2.fadeOutEnd - now2
           && n1.stopTime - now1 == n2.stopTime - now2
  {
  }

  /** Under the invariant, JavaScript's truthiness test on `currentTestIntervalName` is just presence. */
  lemma ActiveTestIsPresentName(ratio: nat -> real, s: TesterState)
    requires Inv(ratio, s)
    ensures HasActiveTest(s) <==> s.currentTestIntervalName.Some?
  {
  }

  /** An active test can always be answered: clicking its own button is judged correct. */
  lemma ActiveTestIsAnswerable(ratio: nat -> real, s: TesterState)
    requires Inv(ratio, s) && s.currentTestIntervalName.Some? && !s.isPlaying
    ensures var e := GuessClicked(Some(s.currentTestIntervalName.value));
      ValidEvent(e) && ClickGuess(s, e.button).feedback == Correct
  {
  }
}
