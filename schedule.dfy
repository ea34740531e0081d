/** The note schedule of one generated loop, as functions of the chosen
    progression and the melody draws: which chord fills each two-beat slot,
    the chord notes on track 0 and the melody notes on track 1.
    Times are in half-beats: a slot is 4 half-beats long. */
module Schedule {
  import opened Tables
  import opened Midi

  /** Number of two-beat bars, and the cap on the number of chord slots. */
  const Bars: nat := 8
  /** Melody notes per bar, each half a beat after the previous one. */
  const BeatsPerBar: nat := 4
  /** Length of one bar (two beats) in half-beats. */
  const BarLength: nat := 4
  const Bpm: nat := 100

  const ChordTrack: nat := 0
  const ChordChannel: nat := 0
  /** Every chord lasts two beats. */
  const ChordDuration: nat := 4
  const ChordVelocity: int := 80

  const MelodyTrack: nat := 1
  const MelodyChannel: nat := 1
  const BasePitch: int := 60
  /** Scale steps above middle C: the C major scale up to the octave. */
  const Scale: seq<int> := [0, 2, 4, 5, 7, 9, 11, 12]
  /** The two melody note lengths, half a beat and one beat. */
  const Durations: seq<nat> := [1, 2]
  const MinVelocity: int := 70
  const MaxVelocity: int := 110

  /** The melody pitches the scale allows. */
  const CMajorPitches: set<int> := {60, 62, 64, 65, 67, 69, 71, 72}

  /** The slice `s[:n]`: at most the first `n` elements. */
  function Prefix<T>(s: seq<T>, n: nat): (r: seq<T>)
    ensures |r| == if |s| < n then |s| else n
    ensures forall i :: 0 <= i < |r| ==> r[i] == s[i]
  {
    if |s| <= n then s else s[..n]
  }

  /** A progression played twice, cut to at most `Bars` slots. */
  function RepeatedSlots(pattern: seq<Chord>): (r: seq<Chord>)
    ensures |r| == if 2 * |pattern| < Bars then 2 * |pattern| else Bars
    ensures forall i :: 0 <= i < |r| ==> r[i] == pattern[i % |pattern|]
  {
    Prefix(pattern + pattern, Bars)
  }

  /** The chord of each slot for a progression choice: the repeated
      progression, or `Bars` empty slots for the silence option. */
  function ChordSlots(choice: string): (r: seq<Chord>)
    requires choice == Silence || choice in ChordProgressions
    ensures |r| <= Bars
    ensures choice == Silence ==> |r| == Bars && forall i :: 0 <= i < |r| ==> r[i] == []
    ensures choice != Silence ==> forall i :: 0 <= i < |r| ==>
      r[i] == ChordProgressions[choice][i % |ChordProgressions[choice]|]
  {
    if choice != Silence then RepeatedSlots(ChordProgressions[choice])
    else seq(Bars, _ => [])
  }

  /** Every table progression fills all eight slots, except the three-chord
      "Ⅱ-Ⅴ-Ⅰ", which fills six. */
  lemma ChordSlotCounts(choice: string)
    requires choice == Silence || choice in ChordProgressions
    ensures |ChordSlots(choice)| == if choice == "Ⅱ-Ⅴ-Ⅰ" then 6 else Bars
  {
    if choice != Silence {
      var n := |ChordProgressions[choice]|;
      assert n == 3 <==> choice == "Ⅱ-Ⅴ-Ⅰ";
      assert n >= 3;
    }
  }

  // ----- Chord notes -----

  /** The notes of one chord slot, in the chord's order. */
  function SlotNotes(slot: nat, chord: Chord): (r: seq<Event>)
    ensures |r| == |chord|
    ensures forall k :: 0 <= k < |r| ==>
      r[k] == Note(ChordTrack, ChordChannel, chord[k], BarLength * slot, ChordDuration, ChordVelocity)
  {
    if chord == [] then []
    else
      var tone := chord[|chord| - 1];
      SlotNotes(slot, chord[..|chord| - 1]) +
        [Note(ChordTrack, ChordChannel, tone, BarLength * slot, ChordDuration, ChordVelocity)]
  }

  /** The chord notes of all slots, slot by slot: one per chord tone. */
  function ChordNotes(slots: seq<Chord>): (r: seq<Event>)
    ensures |r| == SumSizes(slots)
  {
    if slots == [] then []
    else ChordNotes(slots[..|slots| - 1]) + SlotNotes(|slots| - 1, slots[|slots| - 1])
  }

  /** Total number of notes in the chords of `slots`. */
  function SumSizes(slots: seq<Chord>): nat
  {
    if slots == [] then 0 else SumSizes(slots[..|slots| - 1]) + |slots[|slots| - 1]|
  }

  lemma {:induction false} SlotNotesShape(slot: nat, chord: Chord)
    ensures forall e :: e in SlotNotes(slot, chord) <==>
      e.Note? && e.pitch in chord &&
      e == Note(ChordTrack, ChordChannel, e.pitch, BarLength * slot, ChordDuration, ChordVelocity)
  {
    if chord != [] {
      var init := chord[..|chord| - 1];
      SlotNotesShape(slot, init);
      assert chord == init + [chord[|chord| - 1]];
    }
  }

  /** `e` sounds a tone of the chord of slot `i`, starting with that slot. */
  predicate SoundsIn(slots: seq<Chord>, i: int, e: Event)
  {
    0 <= i < |slots| && e.Note? && e.onset == BarLength * i && e.pitch in slots[i]
  }

  /** A note is a chord note exactly when it is on track 0, channel 0, lasts
      two beats, has velocity 80, and sounds a tone of the chord of some slot
      `i` starting at beat 2 * i. */
  lemma {:induction false} ChordNoteMembership(slots: seq<Chord>, e: Event)
    ensures e in ChordNotes(slots) <==>
      e.Note? && e.track == ChordTrack && e.channel == ChordChannel &&
      e.duration == ChordDuration && e.velocity == ChordVelocity &&
      exists i :: SoundsIn(slots, i, e)
  {
    if slots != [] {
      var init, k := slots[..|slots| - 1], |slots| - 1;
      ChordNoteMembership(init, e);
      SlotNotesShape(k, slots[k]);
      assert ChordNotes(slots) == ChordNotes(init) + SlotNotes(k, slots[k]);
      if e in ChordNotes(init) {
        var i :| SoundsIn(init, i, e);
        assert SoundsIn(slots, i, e);
      } else if e in SlotNotes(k, slots[k]) {
        assert SoundsIn(slots, k, e);
      }
      if exists i :: SoundsIn(slots, i, e) {
        var i :| SoundsIn(slots, i, e);
        if i < k {
          assert SoundsIn(init, i, e);
        }
      }
    }
  }

  /** The chord notes are all on track 0: filtering by track 0 keeps every
      one, filtering by any other track keeps none. */
  lemma {:induction false} ChordNotesTrack(slots: seq<Chord>, track: nat)
    ensures NotesOn(ChordNotes(slots), track) == if track == ChordTrack then ChordNotes(slots) else []
  {
    if slots != [] {
      var init, k := slots[..|slots| - 1], |slots| - 1;
      ChordNotesTrack(init, track);
      SlotNotesTrack(k, slots[k], track);
      NotesOnAppend(ChordNotes(init), SlotNotes(k, slots[k]), track);
    }
  }

  lemma {:induction false} SlotNotesTrack(slot: nat, chord: Chord, track: nat)
    ensures NotesOn(SlotNotes(slot, chord), track) == if track == ChordTrack then SlotNotes(slot, chord) else []
  {
    if chord != [] {
      var init := chord[..|chord| - 1];
      SlotNotesTrack(slot, init, track);
      var last := Note(ChordTrack, ChordChannel, chord[|chord| - 1], BarLength * slot, ChordDuration, ChordVelocity);
      NotesOnAppend(SlotNotes(slot, init), [last], track);
      assert [last][..0] == [];
    }
  }

  /** With the silence option no chord note is written. */
  lemma SilenceHasNoChordNotes()
    ensures ChordNotes(ChordSlots(Silence)) == []
  {
    var slots := ChordSlots(Silence);
    assert forall k :: 0 <= k <= |slots| ==> SumSizes(slots[..k]) == 0 by {
      forall k | 0 <= k <= |slots| ensures SumSizes(slots[..k]) == 0 {
        EmptySlotsSum(slots, k);
      }
    }
    assert slots[..|slots|] == slots;
  }

  lemma {:induction false} EmptySlotsSum(slots: seq<Chord>, k: nat)
    requires k <= |slots|
    requires forall i :: 0 <= i < |slots| ==> slots[i] == []
    ensures SumSizes(slots[..k]) == 0
  {
    if k > 0 {
      EmptySlotsSum(slots, k - 1);
      assert slots[..k][..k - 1] == slots[..k - 1];
    }
  }

  // ----- Melody notes -----

  /** One melody draw: an index into `Scale`, an index into `Durations` and
      a velocity. */
  datatype MelodyDraw = MelodyDraw(step: nat, length: nat, velocity: int)

  /** A draw the random choices can produce. */
  predicate ValidDraw(d: MelodyDraw)
  {
    d.step < |Scale| && d.length < |Durations| && MinVelocity <= d.velocity <= MaxVelocity
  }

  /** The note of beat `beat` of bar `bar`: it starts at bar * 2 + beat * 0.5
      beats, that is 4 * bar + beat half-beats. */
  function MelodyNote(bar: nat, beat: nat, d: MelodyDraw): Event
    requires ValidDraw(d)
  {
    Note(MelodyTrack, MelodyChannel, BasePitch + Scale[d.step],
         BarLength * bar + beat, Durations[d.length], d.velocity)
  }

  /** The melody notes for a list of draws, bar by bar and beat by beat. */
  function MelodyNotes(draws: seq<MelodyDraw>): (r: seq<Event>)
    requires forall k :: 0 <= k < |draws| ==> ValidDraw(draws[k])
    ensures |r| == |draws|
  {
    if draws == [] then []
    else
      var k := |draws| - 1;
      MelodyNotes(draws[..k]) + [MelodyNote(k / BeatsPerBar, k % BeatsPerBar, draws[k])]
  }

  /** Note `k` of the melody is on track 1, channel 1, starts at half-beat
      `k`, and takes its pitch, length and velocity from draw `k`. */
  lemma {:induction false} MelodyNotesShape(draws: seq<MelodyDraw>)
    requires forall k :: 0 <= k < |draws| ==> ValidDraw(draws[k])
    ensures forall k :: 0 <= k < |draws| ==>
      MelodyNotes(draws)[k].Note? &&
      MelodyNotes(draws)[k].track == MelodyTrack && MelodyNotes(draws)[k].channel == MelodyChannel &&
      MelodyNotes(draws)[k].onset == k &&
      MelodyNotes(draws)[k].pitch == BasePitch + Scale[draws[k].step] &&
      MelodyNotes(draws)[k].duration == Durations[draws[k].length] &&
      MelodyNotes(draws)[k].velocity == draws[k].velocity
  {
    if draws != [] {
      var k := |draws| - 1;
      MelodyNotesShape(draws[..k]);
      assert BarLength * (k / BeatsPerBar) + k % BeatsPerBar == k;
    }
  }

  /** The bounds every melody note keeps: a C major pitch between 60 and 72,
      a length of half a beat or one beat, a velocity between 70 and 110. */
  predicate InMelodyRange(e: Event)
  {
    && e.Note?
    && e.pitch in CMajorPitches
    && e.duration in {1, 2}
    && MinVelocity <= e.velocity <= MaxVelocity
  }

  /** The melody pitches are exactly middle C plus a scale step; they lie in
      one octave and their pitch classes are those of C major. */
  lemma CMajorPitchesAreScale()
    ensures forall p :: p in CMajorPitches <==> exists i :: 0 <= i < |Scale| && p == BasePitch + Scale[i]
    ensures forall p :: p in CMajorPitches ==>
      BasePitch <= p <= BasePitch + 12 && (p - BasePitch) % 12 in {0, 2, 4, 5, 7, 9, 11}
  {
    forall p | p in CMajorPitches ensures exists i :: 0 <= i < |Scale| && p == BasePitch + Scale[i] {
      var i := if p == 60 then 0 else if p == 62 then 1 else if p == 64 then 2 else if p == 65 then 3
        else if p == 67 then 4 else if p == 69 then 5 else if p == 71 then 6 else 7;
      assert p == BasePitch + Scale[i];
    }
  }

  /** The note of one valid draw is on track 1, channel 1, and keeps the melody bounds. */
  lemma MelodyNoteInRange(bar: nat, beat: nat, d: MelodyDraw)
    requires ValidDraw(d)
    ensures InMelodyRange(MelodyNote(bar, beat, d))
    ensures MelodyNote(bar, beat, d).track == MelodyTrack && MelodyNote(bar, beat, d).channel == MelodyChannel
  {
  }

  /** Every melody note keeps the melody bounds and starts within the first
      `|draws|` half-beats. */
  lemma {:induction false} MelodyNoteRanges(draws: seq<MelodyDraw>)
    requires forall k :: 0 <= k < |draws| ==> ValidDraw(draws[k])
    ensures forall e :: e in MelodyNotes(draws) ==> InMelodyRange(e) && e.onset < |draws|
  {
    if draws != [] {
      var k := |draws| - 1;
      MelodyNoteRanges(draws[..k]);
      MelodyNoteInRange(k / BeatsPerBar, k % BeatsPerBar, draws[k]);
    }
  }

  /** The melody notes are all on track 1. */
  lemma {:induction false} MelodyNotesTrack(draws: seq<MelodyDraw>, track: nat)
    requires forall k :: 0 <= k < |draws| ==> ValidDraw(draws[k])
    ensures NotesOn(MelodyNotes(draws), track) == if track == MelodyTrack then MelodyNotes(draws) else []
  {
    if draws != [] {
      var k := |draws| - 1;
      MelodyNotesTrack(draws[..k], track);
      var last := MelodyNote(k / BeatsPerBar, k % BeatsPerBar, draws[k]);
      NotesOnAppend(MelodyNotes(draws[..k]), [last], track);
      assert [last][..0] == [];
    }
  }
}
