/** Melody generation (generateMelody in server.js): one note per beat at a
    fixed tempo of 120 beats per minute, the pitch of each drawn from the seven
    notes of the C major scale. The random draws are an injected sequence of
    numbers in [0, 1), the values Math.random would have returned. */
module Melody {

  /** A note: its pitch in Hz and when it starts and ends, in seconds. */
  datatype Note = Note(frequency: real, startTime: real, endTime: real)

  const Tempo: nat := 120
  const NoteDuration: real := 0.5
  const NoteFrequencies: seq<real> := [261.63, 293.66, 329.63, 349.23, 392.00, 440.00, 493.88]

  /** The values Math.random returns. */
  predicate IsRandom(r: real) {
    0.0 <= r < 1.0
  }

  /** The index Math.floor(r * noteFrequencies.length) picks: r falls into the
      k-th of seven equal sub-intervals of [0, 1), so each index is chosen for
      a seventh of the possible draws. */
  function NoteIndex(r: real): (k: int)
    requires IsRandom(r)
    ensures 0 <= k < |NoteFrequencies|
    ensures k as real / 7.0 <= r < (k + 1) as real / 7.0
  {
    (r * |NoteFrequencies| as real).Floor
  }

  /** Note i of a melody starts i beats in and lasts one beat. */
  ghost predicate OnBeatGrid(melody: seq<Note>) {
    forall i :: 0 <= i < |melody| ==>
      melody[i].startTime == i as real * NoteDuration &&
      melody[i].endTime == melody[i].startTime + NoteDuration
  }

  /** Successive notes touch: each starts where the one before it ends. */
  ghost predicate Contiguous(melody: seq<Note>) {
    forall i :: 0 < i < |melody| ==> melody[i - 1].endTime == melody[i].startTime
  }

  ghost predicate StartsAtZero(melody: seq<Note>) {
    |melody| > 0 ==> melody[0].startTime == 0.0
  }

  ghost predicate EachLastsOneBeat(melody: seq<Note>) {
    forall i :: 0 <= i < |melody| ==> melody[i].endTime - melody[i].startTime == NoteDuration
  }

  ghost predicate InScale(melody: seq<Note>) {
    forall i :: 0 <= i < |melody| ==> melody[i].frequency in NoteFrequencies
  }

  /** generateMelody: the loop runs duration * tempo times; pass i draws
      random[i], picks the scale note it selects and appends a note that
      spans beat i. */
  method GenerateMelody(duration: nat, random: seq<real>) returns (melody: seq<Note>)
    requires |random| >= duration * Tempo
    requires forall k :: 0 <= k < |random| ==> IsRandom(random[k])
    ensures |melody| == duration * Tempo
    ensures forall i :: 0 <= i < |melody| ==>
              melody[i].frequency == NoteFrequencies[NoteIndex(random[i])]
    ensures OnBeatGrid(melody)
    ensures StartsAtZero(melody) && Contiguous(melody) && EachLastsOneBeat(melody)
    ensures InScale(melody)
  {
    var totalBeats := duration * Tempo;
    melody := [];
    var currentTime := 0.0;
    var i := 0;
    while i < totalBeats
      invariant 0 <= i <= totalBeats
      invariant |melody| == i
      invariant forall j :: 0 <= j < i ==>
                  melody[j] == Note(NoteFrequencies[NoteIndex(random[j])],
                                    j as real * NoteDuration,
                                    j as real * NoteDuration + NoteDuration)
    {
      var noteIndex := (random[i] * |NoteFrequencies| as real).Floor;
      var frequency := NoteFrequencies[noteIndex];
      var noteTime := currentTime + i as real * NoteDuration;
      melody := melody + [Note(frequency, noteTime, noteTime + NoteDuration)];
      i := i + 1;
    }
    BeatGridShape(melody);
  }

  /** A melody on the beat grid starts at 0, is contiguous and is made of
      one-beat notes. */
  lemma BeatGridShape(melody: seq<Note>)
    requires OnBeatGrid(melody)
    ensures StartsAtZero(melody) && Contiguous(melody) && EachLastsOneBeat(melody)
  {
  }

  /** Conversely, a melody that starts at 0, is contiguous and is made of
      one-beat notes lies on the beat grid. */
  lemma {:induction false} ShapeIsBeatGrid(melody: seq<Note>)
    requires StartsAtZero(melody) && Contiguous(melody) && EachLastsOneBeat(melody)
    ensures OnBeatGrid(melody)
  {
    if |melody| > 1 {
      var front := melody[..|melody| - 1];
      assert StartsAtZero(front) && EachLastsOneBeat(front);
      assert Contiguous(front) by {
        forall i | 0 < i < |front| ensures front[i - 1].endTime == front[i].startTime {
          assert melody[i - 1].endTime == melody[i].startTime;
        }
      }
      ShapeIsBeatGrid(front);
      var n := |melody| - 1;
      assert front[n - 1] == melody[n - 1];
      assert melody[n - 1].endTime == melody[n].startTime;
      forall i | 0 <= i < |melody|
        ensures melody[i].startTime == i as real * NoteDuration
      {
        if i < n { assert front[i] == melody[i]; }
      }
    }
  }

  /** A melody on the beat grid ends half a second per note after it starts. */
  lemma BeatGridSpan(melody: seq<Note>)
    requires OnBeatGrid(melody) && |melody| > 0
    ensures melody[|melody| - 1].endTime == |melody| as real * NoteDuration
  {
  }
}
