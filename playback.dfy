/**
  What the tester asks the audio backend to play: one request per note, with
  the gain envelope that fades it in and out, and the two-note plan for the
  melodic (one after the other) and harmonic (together) modes. Times are in
  seconds on the audio clock, except the busy timeout, which is in
  milliseconds as the timer takes it.
*/
module PlaybackScheduler {

  /** Gain the note fades in to. */
  const PeakGain: real := 0.5
  /** Seconds from the note's start to full gain. */
  const AttackTime: real := 0.01
  /** Seconds after the nominal end at which the gain is back to zero. */
  const ReleaseTail: real := 0.05
  /** Seconds after the nominal end at which the oscillator stops. */
  const StopTail: real := 0.1
  /** Milliseconds the busy state outlasts the nominal playback. */
  const GraceMs: real := 200.0

  /**
    One sine note: the gain is set to 0 at `startTime`, ramps linearly to
    PeakGain at `peakTime`, ramps linearly back to 0 at `fadeOutEnd`, and the
    oscillator plays from `startTime` to `stopTime`.
  */
  datatype NoteRequest = NoteRequest(
    frequency: real,
    startTime: real,
    peakTime: real,
    fadeOutEnd: real,
    stopTime: real)

  /** The envelope's breakpoints come in time order, as linear ramps need. */
  predicate WellTimed(n: NoteRequest)
  {
    n.startTime < n.peakTime < n.fadeOutEnd < n.stopTime
  }

  /** The request for a note of `duration` seconds at `frequency`, starting at `startTime`. */
  function PlayNote(frequency: real, startTime: real, duration: real): (n: NoteRequest)
    ensures n.frequency == frequency && n.startTime == startTime
    ensures n.peakTime == startTime + AttackTime
    ensures duration >= 0.0 ==> WellTimed(n)
    ensures n.fadeOutEnd - n.startTime == duration + ReleaseTail
    ensures n.stopTime - n.startTime == duration + StopTail
  {
    NoteRequest(
      frequency,
      startTime,
      startTime + AttackTime,
      startTime + duration + ReleaseTail,
      startTime + duration + StopTail)
  }

  /** The gain the envelope of `n` holds at time `t` while the oscillator runs. */
  function GainAt(n: NoteRequest, t: real): (g: real)
    requires WellTimed(n)
    requires n.startTime <= t <= n.stopTime
    ensures 0.0 <= g <= PeakGain
  {
    if t <= n.peakTime then
      GainRampUp(n, t)
    else if t <= n.fadeOutEnd then
      GainRampDown(n, t)
    else
      0.0
  }

  /** A part of a positive whole is a fraction in [0, 1], zero exactly when the part is. */
  lemma UnitFraction(part: real, whole: real)
    requires 0.0 <= part <= whole && 0.0 < whole
    ensures 0.0 <= part / whole <= 1.0
    ensures part / whole == 0.0 <==> part == 0.0
  {
    assert part / whole * whole == part;
  }

  function GainRampUp(n: NoteRequest, t: real): (g: real)
    requires WellTimed(n)
    requires n.startTime <= t <= n.peakTime
    ensures 0.0 <= g <= PeakGain
    ensures g == 0.0 <==> t == n.startTime
  {
    var span := n.peakTime - n.startTime;
    var elapsed := t - n.startTime;
    UnitFraction(elapsed, span);
    PeakGain * (elapsed / span)
  }

  function GainRampDown(n: NoteRequest, t: real): (g: real)
    requires WellTimed(n)
    requires n.peakTime <= t <= n.fadeOutEnd
    ensures 0.0 <= g <= PeakGain
    ensures g == 0.0 <==> t == n.fadeOutEnd
  {
    var span := n.fadeOutEnd - n.peakTime;
    var left := n.fadeOutEnd - t;
    UnitFraction(left, span);
    PeakGain * (left / span)
  }

  /**
    The note is audible (non-zero gain) exactly strictly between its start and
    the end of its fade-out; in particular it is silent when it starts and
    when the oscillator stops, so neither edge clicks.
  */
  lemma AudibleBetweenStartAndFadeOut(n: NoteRequest, t: real)
    requires WellTimed(n)
    requires n.startTime <= t <= n.stopTime
    ensures GainAt(n, t) != 0.0 <==> n.startTime < t < n.fadeOutEnd
    ensures t == n.peakTime ==> GainAt(n, t) == PeakGain
  {
  }

  /** The notes of one test and how long, nominally, they take together. */
  datatype PlaybackPlan = PlaybackPlan(notes: seq<NoteRequest>, totalPlayTime: real)

  /**
    The plan for `rootFrequency` and `intervalFrequency`: in mode "melodic"
    the interval note follows the root note; in any other mode both sound
    together from `now`.
  */
  function Plan(rootFrequency: real, intervalFrequency: real, mode: string, duration: real, now: real)
    : (p: PlaybackPlan)
    ensures |p.notes| == 2
    ensures p.notes[0].frequency == rootFrequency && p.notes[1].frequency == intervalFrequency
    ensures p.notes[0].startTime == now
    ensures mode == "melodic" ==> p.notes[1].startTime == now + duration
    ensures mode != "melodic" ==> p.notes[1].startTime == now
    ensures forall k :: 0 <= k < |p.notes| ==>
      p.notes[k] == PlayNote(p.notes[k].frequency, p.notes[k].startTime, duration)
    ensures p.totalPlayTime == p.notes[1].startTime + duration - now
  {
    if mode == "melodic" then
      PlaybackPlan([PlayNote(rootFrequency, now, duration),
                    PlayNote(intervalFrequency, now + duration, duration)], duration * 2.0)
    else
      PlaybackPlan([PlayNote(rootFrequency, now, duration),
                    PlayNote(intervalFrequency, now, duration)], duration)
  }

  /** Milliseconds until the busy state ends, counted from scheduling. */
  function BusyTimeoutMs(totalPlayTime: real): (ms: real)
    ensures ms / 1000.0 == totalPlayTime + GraceMs / 1000.0
    ensures totalPlayTime >= 0.0 ==> ms >= GraceMs
  {
    totalPlayTime * 1000.0 + GraceMs
  }

  /**
    Every note of a plan has stopped a tenth of a second before the busy
    timeout fires, and the last one stops exactly then: the tester stays busy
    for the whole sound plus that margin.
  */
  lemma PlanEndsBeforeBusyTimeout(rootFrequency: real, intervalFrequency: real, mode: string,
                                  duration: real, now: real)
    requires duration >= 0.0
    ensures var p := Plan(rootFrequency, intervalFrequency, mode, duration, now);
      (forall k :: 0 <= k < |p.notes| ==>
         p.notes[k].stopTime + StopTail <= now + BusyTimeoutMs(p.totalPlayTime) / 1000.0)
      && p.notes[1].stopTime + StopTail == now + BusyTimeoutMs(p.totalPlayTime) / 1000.0
  {
  }
}
