/**
  The interval catalogue of the trainer: the names a test may pick and a guess
  may name, the table from names to semitone counts, the frequency of an
  interval above a root, and the choice of a test interval from a random draw.

  Equal temperament needs 2^(n/12), which is not a rational number; the model
  takes that ratio as a parameter `ratio` (a function from semitone counts to
  reals) instead of computing it.
*/
module IntervalCatalog {

  /** The interval names shown as guess buttons, in display order. */
  const Intervals: seq<string> := [
    "Unison", "Minor 2nd", "Major 2nd", "Minor 3rd", "Major 3rd",
    "Perfect 4th", "Tritone", "Perfect 5th", "Minor 6th", "Major 6th",
    "Minor 7th", "Major 7th", "Octave"
  ]

  /** The pool a new test draws from: the whole list of guessable names. */
  const IntervalsInUse: seq<string> := Intervals

  /** Semitones above the root for every known name; three names share the tritone. */
  function IntervalMap(): (m: map<string, nat>)
    ensures forall name :: name in m ==> m[name] <= 12
    ensures "Unison" in m && m["Unison"] == 0
    ensures "Octave" in m && m["Octave"] == 12
    ensures forall name :: name in m && m[name] == 0 ==> name == "Unison"
    ensures "Tritone" in m && "Augmented 4th" in m && "Diminished 5th" in m
    ensures m["Tritone"] == 6 && m["Augmented 4th"] == 6 && m["Diminished 5th"] == 6
    ensures forall i :: 0 <= i < |Intervals| ==> Intervals[i] in m
  {
    map[
      "Unison" := 0,
      "Minor 2nd" := 1,
      "Major 2nd" := 2,
      "Minor 3rd" := 3,
      "Major 3rd" := 4,
      "Perfect 4th" := 5,
      "Tritone" := 6,
      "Augmented 4th" := 6,
      "Diminished 5th" := 6,
      "Perfect 5th" := 7,
      "Minor 6th" := 8,
      "Major 6th" := 9,
      "Minor 7th" := 10,
      "Major 7th" := 11,
      "Octave" := 12
    ]
  }

  /**
    The frequency `intervalName` lies above `rootFrequency`; a name the table
    does not know yields the root itself. (The table is looked up as a map of
    its own 15 names only.)
  */
  function IntervalFrequency(ratio: nat -> real, rootFrequency: real, intervalName: string): (f: real)
    ensures intervalName in IntervalMap() ==> f == rootFrequency * ratio(IntervalMap()[intervalName])
    ensures f == rootFrequency || exists n: nat :: n <= 12 && f == rootFrequency * ratio(n)
  {
    var table := IntervalMap();
    if intervalName !in table then rootFrequency
    else rootFrequency * ratio(table[intervalName])
  }

  /** The index `floor(random * length)` a draw in [0, 1) picks from the pool. */
  function RandomIndex(random: real): (i: nat)
    requires 0.0 <= random < 1.0
    ensures i < |IntervalsInUse|
  {
    (random * |IntervalsInUse| as real).Floor
  }

  /** The interval a new test uses for the random draw `random`. */
  function SelectRandomInterval(random: real): (name: string)
    requires 0.0 <= random < 1.0
    ensures name in IntervalsInUse
    ensures name in IntervalMap()
  {
    IntervalsInUse[RandomIndex(random)]
  }

  /** A draw picks index i exactly when it falls in the i-th of |pool| equal slices of [0, 1). */
  lemma RandomIndexSlice(random: real, i: nat)
    requires 0.0 <= random < 1.0
    ensures RandomIndex(random) == i <==>
      i as real / |IntervalsInUse| as real <= random < (i + 1) as real / |IntervalsInUse| as real
  {
  }

  /** Every name of the pool is chosen by some draw. */
  lemma EveryIntervalSelectable(i: nat)
    requires i < |IntervalsInUse|
    ensures exists random :: 0.0 <= random < 1.0 && SelectRandomInterval(random) == IntervalsInUse[i]
  {
    assert |IntervalsInUse| == 13;
    var random := i as real / 13.0;
    assert random * 13.0 == i as real;
    assert RandomIndex(random) == i;
    assert SelectRandomInterval(random) == IntervalsInUse[i];
  }

  /** A name the table does not know falls back to the root frequency. */
  lemma UnknownNameIsRoot(ratio: nat -> real, rootFrequency: real, intervalName: string)
    requires intervalName !in IntervalMap()
    ensures IntervalFrequency(ratio, rootFrequency, intervalName) == rootFrequency
  {
  }

  /**
    With a ratio that is 1 only at zero semitones and a non-zero root, the
    frequency equals the root exactly for unknown names and for the unison.
  */
  lemma RootOnlyForUnknownOrUnison(ratio: nat -> real, rootFrequency: real, intervalName: string)
    requires rootFrequency != 0.0
    requires ratio(0) == 1.0
    requires forall n: nat :: 0 < n <= 12 ==> ratio(n) != 1.0
    ensures IntervalFrequency(ratio, rootFrequency, intervalName) == rootFrequency
      <==> intervalName !in IntervalMap() || intervalName == "Unison"
  {
  }

  /** Every name of the pool and of the guess buttons is in the table: no test takes the fallback. */
  lemma PoolNameUsesTable(ratio: nat -> real, rootFrequency: real, intervalName: string)
    requires intervalName in IntervalsInUse
    ensures intervalName in IntervalMap() && IntervalMap()[intervalName] <= 12
    ensures IntervalFrequency(ratio, rootFrequency, intervalName)
      == rootFrequency * ratio(IntervalMap()[intervalName])
  {
  }

  /** The octave doubles the root when the ratio for twelve semitones is 2. */
  lemma OctaveDoublesRoot(ratio: nat -> real, rootFrequency: real)
    requires ratio(12) == 2.0
    ensures IntervalFrequency(ratio, rootFrequency, "Octave") == 2.0 * rootFrequency
  {
  }

  /** The tritone's three names sound the same pitch. */
  lemma TritoneNamesAgree(ratio: nat -> real, rootFrequency: real)
    ensures IntervalFrequency(ratio, rootFrequency, "Augmented 4th")
      == IntervalFrequency(ratio, rootFrequency, "Tritone")
    ensures IntervalFrequency(ratio, rootFrequency, "Diminished 5th")
      == IntervalFrequency(ratio, rootFrequency, "Tritone")
  {
  }
}
