/**
  The interval tester object: the fields the page's handlers update in place,
  and one method per handler. Each method states its new state as a
  TestSession function of the old state (`Step` for the unlock and settings
  handlers, the handler's own step function for the others), so the lemmas
  proved there hold of the object; `Valid()` is TestSession's
  invariant read off the fields.
*/
module Tester {
  import opened Wrappers
  import opened IntervalCatalog
  import opened PlaybackScheduler
  import opened TestSession

  class IntervalTester {
    /** The equal-tempered ratio 2^(n/12) for n semitones, supplied by the host. */
    const ratio: nat -> real

    var isReady: bool
    var isPlaying: bool
    var currentTestIntervalName: Option<string>
    var lastPlayedFrequencies: seq<real>
    var currentStreak: nat
    var highStreak: nat
    var settings: Settings

    /** The fields as a TestSession state. */
    function State(): TesterState
      reads this
    {
      TesterState(isReady, isPlaying, currentTestIntervalName, lastPlayedFrequencies,
                  Streaks(currentStreak, highStreak), settings)
    }

    ghost predicate Valid()
      reads this
    {
      Inv(ratio, State())
    }

    constructor (ratio: nat -> real)
      ensures Valid()
      ensures this.ratio == ratio
      ensures State() == Initial()
    {
      this.ratio := ratio;
      isReady := false;
      isPlaying := false;
      currentTestIntervalName := None;
      lastPlayedFrequencies := [];
      currentStreak := 0;
      highStreak := 0;
      settings := InitialSettings();
    }

    /** The first click anywhere once the audio context is running: playing becomes possible. */
    method UnlockAudioContext()
      requires Valid()
      modifies this
      ensures Valid()
      ensures State() == Step(ratio, old(State()), AudioUnlocked)
    {
      isReady := true;
    }

    /**
      The play (`isNewTest`) and replay buttons. `random` is the draw in
      [0, 1), `now` the audio clock, `suspended` whether the audio context
      drops notes; the notes requested and the timer delay are returned.
    */
    method PlayTest(isNewTest: bool, random: real, now: real, suspended: bool)
      returns (feedback: Feedback, playback: Option<Playback>)
      requires Valid()
      requires 0.0 <= random < 1.0
      modifies this
      ensures Valid()
      ensures PlayResult(State(), feedback, playback)
        == TestSession.PlayTest(ratio, old(State()), isNewTest, random, now, suspended)
    {
      if !isReady || isPlaying {
        return NoFeedback, None;
      }
      isPlaying := true;

      var rootFrequency: real;
      var intervalFrequency: real;
      if isNewTest {
        currentTestIntervalName := Some(SelectRandomInterval(random));
        rootFrequency := settings.rootFrequency;
        intervalFrequency := IntervalFrequency(ratio, rootFrequency, currentTestIntervalName.value);
        lastPlayedFrequencies := [rootFrequency, intervalFrequency];
        feedback := Info(ListenCarefully);
      } else {
        if |lastPlayedFrequencies| == 0 {
          isPlaying := false;
          return Info(PlayNewTestFirst), None;
        }
        rootFrequency := lastPlayedFrequencies[0];
        intervalFrequency := lastPlayedFrequencies[1];
        feedback := Info(Replaying);
      }

      var duration := settings.noteDuration;
      var notes: seq<NoteRequest>;
      var totalPlayTime: real;
      if settings.mode == "melodic" {
        notes := [PlayNote(rootFrequency, now, duration), PlayNote(intervalFrequency, now + duration, duration)];
        totalPlayTime := duration * 2.0;
      } else {
        notes := [PlayNote(rootFrequency, now, duration), PlayNote(intervalFrequency, now, duration)];
        totalPlayTime := duration;
      }
      if suspended {
        notes := [];
      }
      playback := Some(Playback(notes, BusyTimeoutMs(totalPlayTime)));
    }

    /** The playback timer fires. */
    method FinishPlayback()
      requires Valid()
      modifies this
      ensures Valid()
      ensures State() == TestSession.FinishPlayback(old(State()))
    {
      isPlaying := false;
    }

    /** Judge a guess against the active test. */
    method CheckAnswer(guess: string) returns (feedback: Feedback)
      requires Valid()
      modifies this
      ensures Valid()
      ensures GuessResult(State(), feedback) == TestSession.CheckAnswer(old(State()), guess)
    {
      if isPlaying {
        return NoFeedback;
      }
      var correctInterval := currentTestIntervalName;
      if correctInterval.None? || correctInterval.value == "" {
        return Info(PlayIntervalFirst);
      }
      var isAnsweredCorrectly := guess == correctInterval.value;
      if isAnsweredCorrectly {
        feedback := Correct;
        currentTestIntervalName := None;
      } else {
        feedback := Incorrect;
      }
      UpdateStreaks(isAnsweredCorrectly);
    }

    /** Extend the streak after a correct guess, reset it after a wrong one. */
    method UpdateStreaks(isAnsweredCorrectly: bool)
      modifies this`currentStreak, this`highStreak
      ensures Streaks(currentStreak, highStreak)
        == TestSession.UpdateStreaks(Streaks(old(currentStreak), old(highStreak)), isAnsweredCorrectly)
    {
      if isAnsweredCorrectly {
        currentStreak := currentStreak + 1;
        if currentStreak > highStreak {
          highStreak := currentStreak;
        }
      } else {
        currentStreak := 0;
      }
    }

    /** A click in the guess grid, on the button naming `button` or (None) beside every button. */
    method OnGuessClick(button: Option<string>) returns (feedback: Feedback)
      requires Valid()
      modifies this
      ensures Valid()
      ensures GuessResult(State(), feedback) == ClickGuess(old(State()), button)
    {
      feedback := NoFeedback;
      if button.Some? && currentTestIntervalName.Some? && currentTestIntervalName.value != "" && !isPlaying {
        feedback := CheckAnswer(button.value);
      }
    }

    /** The mode select: the new mode is taken as given. */
    method OnModeChange(mode: string)
      requires Valid()
      modifies this
      ensures Valid()
      ensures State() == Step(ratio, old(State()), ModeChanged(mode))
    {
      settings := settings.(mode := mode);
    }

    /** The root-note select: the new root frequency is taken as given. */
    method OnRootNoteChange(frequency: real)
      requires Valid()
      modifies this
      ensures Valid()
      ensures State() == Step(ratio, old(State()), RootNoteChanged(frequency))
    {
      settings := settings.(rootFrequency := frequency);
    }

    /** The duration input: a value outside [0.1, 2.0], or one that does not parse, is ignored. */
    method OnDurationChange(input: ParsedNumber)
      requires Valid()
      modifies this
      ensures Valid()
      ensures State() == Step(ratio, old(State()), DurationChanged(input))
    {
      if input.Number? && input.value >= MinNoteDuration && input.value <= MaxNoteDuration {
        settings := settings.(noteDuration := input.value);
      }
    }
  }
}
