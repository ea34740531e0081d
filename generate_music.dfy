/** One call of the random loop generator, with every random draw made an
    input: it picks a progression and two instruments, writes tempo and
    program changes, the chord notes and a 32-note melody to a two-track
    MIDI file, and reports the MIDI path and what it picked. */
module GenerateMusic {
  import opened Tables
  import opened Midi
  import opened Schedule
  import opened Paths

  const NumTracks: nat := 2

  /** The outcome of every random draw of one call, in the order they are made. */
  datatype Choices = Choices(
    progression: nat,            // index into ProgressionChoices
    chordInstrument: nat,        // index into ChordInstruments
    melodyInstrument: seq<nat>,  // successive draws, indices into MelodyInstruments
    melody: seq<MelodyDraw>)     // one draw per beat of every bar

  /** Draws the random choices can produce: indices in range, at least one
      melody-instrument draw, and one melody draw for each of the 32 beats. */
  predicate ValidChoices(c: Choices)
  {
    && c.progression < |ProgressionChoices|
    && c.chordInstrument < |ChordInstruments|
    && |c.melodyInstrument| > 0
    && (forall j :: 0 <= j < |c.melodyInstrument| ==> c.melodyInstrument[j] < |MelodyInstruments|)
    && |c.melody| == Bars * BeatsPerBar
    && (forall k :: 0 <= k < |c.melody| ==> ValidDraw(c.melody[k]))
  }

  /** What a call reports: the audio path, the progression name and both instruments. */
  datatype LoopInfo = LoopInfo(file: string, progression: string, chordInst: string, melodyInst: string)

  /** Draws a melody instrument, and draws again for as long as it equals `avoid`.
      The draws are assumed to differ from `avoid` eventually. */
  method DrawMelodyInstrument(avoid: string, draws: seq<nat>) returns (inst: string, used: nat)
    requires forall j :: 0 <= j < |draws| ==> draws[j] < |MelodyInstruments|
    requires exists j :: 0 <= j < |draws| && MelodyInstruments[draws[j]] != avoid
    ensures used < |draws| && inst == MelodyInstruments[draws[used]]
    ensures inst != avoid
    ensures forall j :: 0 <= j < used ==> MelodyInstruments[draws[j]] == avoid
  {
    used := 0;
    inst := MelodyInstruments[draws[0]];
    while inst == avoid
      invariant used < |draws| && inst == MelodyInstruments[draws[used]]
      invariant forall j :: 0 <= j < used ==> MelodyInstruments[draws[j]] == avoid
      decreases |draws| - used
    {
      ghost var w :| 0 <= w < |draws| && MelodyInstruments[draws[w]] != avoid;
      assert used < w;
      used := used + 1;
      inst := MelodyInstruments[draws[used]];
    }
  }

  /** Every melody instrument differs from every chord instrument, so the
      redraw loop stops at the first draw. */
  lemma FirstMelodyDrawKept(c: Choices)
    requires ValidChoices(c)
    ensures forall j :: 0 <= j < |c.melodyInstrument| ==>
      MelodyInstruments[c.melodyInstrument[j]] != ChordInstruments[c.chordInstrument]
  {
  }

  /** Draws the chord instrument, then the melody instrument until it differs;
      the first melody draw is always kept. */
  method ChooseInstruments(c: Choices) returns (chordInst: string, melodyInst: string)
    requires ValidChoices(c)
    ensures chordInst == ChordInstruments[c.chordInstrument]
    ensures melodyInst == MelodyInstruments[c.melodyInstrument[0]]
    ensures melodyInst != chordInst
  {
    chordInst := ChordInstruments[c.chordInstrument];
    FirstMelodyDrawKept(c);
    assert MelodyInstruments[c.melodyInstrument[0]] != chordInst;
    var used;
    melodyInst, used := DrawMelodyInstrument(chordInst, c.melodyInstrument);
  }

  function ProgressionOf(c: Choices): string
    requires ValidChoices(c)
  {
    ProgressionChoices[c.progression]
  }

  /** The chord slots of the drawn progression. */
  function SlotsOf(c: Choices): seq<Chord>
    requires ValidChoices(c)
  {
    ChoiceIsKnown(c.progression);
    ChordSlots(ProgressionOf(c))
  }

  /** Tempo on both tracks, then the program change of each track. */
  function Header(chordInst: string, melodyInst: string): seq<Event>
    requires chordInst in InstrumentToNumber() && melodyInst in InstrumentToNumber()
  {
    [Tempo(ChordTrack, 0, Bpm), Tempo(MelodyTrack, 0, Bpm),
     ProgramChange(ChordTrack, ChordChannel, 0, InstrumentToNumber()[chordInst]),
     ProgramChange(MelodyTrack, MelodyChannel, 0, InstrumentToNumber()[melodyInst])]
  }

  /** Every event one call adds to the MIDI file, in order: four header
      events, one note per chord tone of every slot, and 32 melody notes. */
  function LoopEvents(c: Choices): (r: seq<Event>)
    requires ValidChoices(c)
    ensures |r| == 4 + SumSizes(SlotsOf(c)) + Bars * BeatsPerBar
  {
    InstrumentPrograms(c.chordInstrument, c.melodyInstrument[0]);
    Header(ChordInstruments[c.chordInstrument], MelodyInstruments[c.melodyInstrument[0]]) +
    ChordNotes(SlotsOf(c)) + MelodyNotes(c.melody)
  }

  /** One call: the progression and instruments the draws pick, a fresh
      two-track file holding exactly `LoopEvents(c)`, the reported choices
      and the MIDI path derived from `outputPath`. */
  method GenerateRandomLoop(outputPath: string, c: Choices) returns (midi: MidiFile, info: LoopInfo, midPath: string)
    requires ValidChoices(c)
    ensures fresh(midi) && midi.numTracks == NumTracks
    ensures midi.events == LoopEvents(c)
    ensures info == LoopInfo(outputPath, ProgressionOf(c),
                             ChordInstruments[c.chordInstrument], MelodyInstruments[c.melodyInstrument[0]])
    ensures info.melodyInst != info.chordInst
    ensures midPath == WavToMid(outputPath)
  {
    var progressionName := ProgressionChoices[c.progression];
    var chordInst, melodyInst := ChooseInstruments(c);

    midi := new MidiFile(NumTracks);
    InstrumentPrograms(c.chordInstrument, c.melodyInstrument[0]);
    WriteHeader(midi, chordInst, melodyInst);
    assert [] + Header(chordInst, melodyInst) == Header(chordInst, melodyInst);
    WriteChords(midi, SlotsOf(c));
    WriteMelody(midi, c.melody);

    midPath := WavToMid(outputPath);
    info := LoopInfo(outputPath, progressionName, chordInst, melodyInst);
  }

  /** Sets the tempo of both tracks and the program of each track's instrument. */
  method WriteHeader(midi: MidiFile, chordInst: string, melodyInst: string)
    requires midi.numTracks == NumTracks
    requires chordInst in InstrumentToNumber() && melodyInst in InstrumentToNumber()
    modifies midi
    ensures midi.events == old(midi.events) + Header(chordInst, melodyInst)
  {
    var chordProgram, melodyProgram := InstrumentToNumber()[chordInst], InstrumentToNumber()[melodyInst];
    midi.AddTempo(ChordTrack, 0, Bpm);
    midi.AddTempo(MelodyTrack, 0, Bpm);
    midi.AddProgramChange(ChordTrack, ChordChannel, 0, chordProgram);
    midi.AddProgramChange(MelodyTrack, MelodyChannel, 0, melodyProgram);
    assert Header(chordInst, melodyInst) ==
      [Tempo(ChordTrack, 0, Bpm), Tempo(MelodyTrack, 0, Bpm),
       ProgramChange(ChordTrack, ChordChannel, 0, chordProgram),
       ProgramChange(MelodyTrack, MelodyChannel, 0, melodyProgram)];
  }

  /** The tempo and program changes carry no notes. */
  lemma HeaderHasNoNotes(chordInst: string, melodyInst: string, track: nat)
    requires chordInst in InstrumentToNumber() && melodyInst in InstrumentToNumber()
    ensures NotesOn(Header(chordInst, melodyInst), track) == []
  {
    NoNotes(Header(chordInst, melodyInst), track);
  }

  /** Filtering the whole log by a track filters the chord notes and the melody notes. */
  lemma LoopEventsOn(c: Choices, track: nat)
    requires ValidChoices(c)
    ensures NotesOn(LoopEvents(c), track) ==
      NotesOn(ChordNotes(SlotsOf(c)), track) + NotesOn(MelodyNotes(c.melody), track)
  {
    var chordInst, melodyInst := ChordInstruments[c.chordInstrument], MelodyInstruments[c.melodyInstrument[0]];
    InstrumentPrograms(c.chordInstrument, c.melodyInstrument[0]);
    var h := Header(chordInst, melodyInst);
    var chords, melody := ChordNotes(SlotsOf(c)), MelodyNotes(c.melody);
    assert LoopEvents(c) == h + chords + melody;
    HeaderHasNoNotes(chordInst, melodyInst, track);
    NotesOnSplit(h, chords, melody, track);
  }

  /** Track 0 holds exactly the chord notes, one per chord tone of every
      slot, and track 1 exactly the melody notes, 32 of them. */
  lemma LoopTracks(c: Choices)
    requires ValidChoices(c)
    ensures NotesOn(LoopEvents(c), ChordTrack) == ChordNotes(SlotsOf(c))
    ensures NotesOn(LoopEvents(c), MelodyTrack) == MelodyNotes(c.melody)
    ensures |NotesOn(LoopEvents(c), ChordTrack)| == SumSizes(SlotsOf(c))
    ensures |NotesOn(LoopEvents(c), MelodyTrack)| == Bars * BeatsPerBar == 32
  {
    LoopEventsOn(c, ChordTrack);
    LoopEventsOn(c, MelodyTrack);
    ChordNotesTrack(SlotsOf(c), ChordTrack);
    ChordNotesTrack(SlotsOf(c), MelodyTrack);
    MelodyNotesTrack(c.melody, ChordTrack);
    MelodyNotesTrack(c.melody, MelodyTrack);
    MelodyNotesShape(c.melody);
  }

  /** Every note the call writes is on the chord track or the melody track. */
  lemma LoopNoteTracks(c: Choices)
    requires ValidChoices(c)
    ensures forall e :: e in LoopEvents(c) && e.Note? ==> e.track == ChordTrack || e.track == MelodyTrack
  {
    forall e | e in LoopEvents(c) && e.Note? ensures e.track == ChordTrack || e.track == MelodyTrack {
      NotesOnMembers(LoopEvents(c), e.track);
      LoopEventsOn(c, e.track);
      ChordNotesTrack(SlotsOf(c), e.track);
      MelodyNotesTrack(c.melody, e.track);
    }
  }

  /** Choosing the silence option writes no note on track 0, whatever the other draws. */
  lemma SilentLoop(c: Choices)
    requires ValidChoices(c) && ProgressionOf(c) == Silence
    ensures NotesOn(LoopEvents(c), ChordTrack) == []
    ensures |NotesOn(LoopEvents(c), MelodyTrack)| == 32
  {
    LoopTracks(c);
    SilenceHasNoChordNotes();
  }

  /** A note is on track 0 exactly when it sounds a tone of some slot's chord
      on channel 0, from beat 2 * i for two beats, with velocity 80. */
  lemma LoopChordNotes(c: Choices, e: Event)
    requires ValidChoices(c)
    ensures e in NotesOn(LoopEvents(c), ChordTrack) <==>
      e.Note? && e.track == ChordTrack && e.channel == ChordChannel &&
      e.duration == ChordDuration && e.velocity == ChordVelocity &&
      exists i :: SoundsIn(SlotsOf(c), i, e)
  {
    LoopTracks(c);
    ChordNoteMembership(SlotsOf(c), e);
  }

  /** Melody note `k` on track 1 starts at half-beat `k` (bar k / 4, beat k % 4),
      has a C major pitch in 60..72, lasts half a beat or a beat and has a
      velocity in 70..110. */
  lemma LoopMelody(c: Choices)
    requires ValidChoices(c)
    ensures forall k :: 0 <= k < |NotesOn(LoopEvents(c), MelodyTrack)| ==>
      InMelodyRange(NotesOn(LoopEvents(c), MelodyTrack)[k]) &&
      NotesOn(LoopEvents(c), MelodyTrack)[k].channel == MelodyChannel &&
      NotesOn(LoopEvents(c), MelodyTrack)[k].onset == k
  {
    LoopTracks(c);
    MelodyNotesShape(c.melody);
    MelodyNoteRanges(c.melody);
    var notes := MelodyNotes(c.melody);
    forall k | 0 <= k < |notes| ensures InMelodyRange(notes[k]) {
      assert notes[k] in notes;
    }
  }

  /** Both tracks start with tempo 100 at time 0. */
  lemma LoopTempos(c: Choices)
    requires ValidChoices(c)
    ensures LoopEvents(c)[0] == Tempo(ChordTrack, 0, Bpm)
    ensures LoopEvents(c)[1] == Tempo(MelodyTrack, 0, Bpm)
  {
    InstrumentPrograms(c.chordInstrument, c.melodyInstrument[0]);
    var h := Header(ChordInstruments[c.chordInstrument], MelodyInstruments[c.melodyInstrument[0]]);
    HeadOfConcat(h, ChordNotes(SlotsOf(c)), MelodyNotes(c.melody), 0);
    HeadOfConcat(h, ChordNotes(SlotsOf(c)), MelodyNotes(c.melody), 1);
  }

  /** The chord track gets a chord instrument's program (0..5) and the melody
      track a melody instrument's program (6..11), so they always differ. */
  lemma LoopPrograms(c: Choices)
    requires ValidChoices(c)
    ensures LoopEvents(c)[2] == ProgramChange(ChordTrack, ChordChannel, 0, c.chordInstrument)
    ensures LoopEvents(c)[3] == ProgramChange(MelodyTrack, MelodyChannel, 0, 6 + c.melodyInstrument[0])
    ensures LoopEvents(c)[2].program < 6 <= LoopEvents(c)[3].program < 12
  {
    InstrumentPrograms(c.chordInstrument, c.melodyInstrument[0]);
    var h := Header(ChordInstruments[c.chordInstrument], MelodyInstruments[c.melodyInstrument[0]]);
    HeadOfConcat(h, ChordNotes(SlotsOf(c)), MelodyNotes(c.melody), 2);
    HeadOfConcat(h, ChordNotes(SlotsOf(c)), MelodyNotes(c.melody), 3);
  }

  /** Indexing into the first part of a three-part concatenation. */
  lemma HeadOfConcat<T>(a: seq<T>, b: seq<T>, d: seq<T>, k: nat)
    requires k < |a|
    ensures (a + b + d)[k] == a[k]
  {
  }

  /** Writes every tone of every slot's chord: slot `i` starts at beat 2 * i. */
  method WriteChords(midi: MidiFile, chords: seq<Chord>)
    requires midi.numTracks == NumTracks
    modifies midi
    ensures midi.events == old(midi.events) + ChordNotes(chords)
  {
    ghost var before := midi.events;
    for i := 0 to |chords|
      invariant midi.events == before + ChordNotes(chords[..i])
    {
      var chord := chords[i];
      for j := 0 to |chord|
        invariant midi.events == before + ChordNotes(chords[..i]) + SlotNotes(i, chord[..j])
      {
        midi.AddNote(ChordTrack, ChordChannel, chord[j], BarLength * i, ChordDuration, ChordVelocity);
        assert chord[..j + 1][..j] == chord[..j];
      }
      assert chord[..|chord|] == chord;
      assert chords[..i + 1][..i] == chords[..i];
    }
    assert chords[..|chords|] == chords;
  }

  /** The melody up to beat `beat` of bar `bar` is the melody before it plus that beat's note. */
  lemma MelodyNotesStep(draws: seq<MelodyDraw>, bar: nat, beat: nat)
    requires forall k :: 0 <= k < |draws| ==> ValidDraw(draws[k])
    requires beat < BeatsPerBar && BeatsPerBar * bar + beat < |draws|
    ensures var d := draws[BeatsPerBar * bar + beat];
      MelodyNotes(draws[..BeatsPerBar * bar + beat + 1]) ==
      MelodyNotes(draws[..BeatsPerBar * bar + beat]) +
      [Note(MelodyTrack, MelodyChannel, BasePitch + Scale[d.step], BarLength * bar + beat, Durations[d.length], d.velocity)]
  {
    var k := BeatsPerBar * bar + beat;
    assert k / BeatsPerBar == bar && k % BeatsPerBar == beat;
    assert draws[..k + 1][..k] == draws[..k];
  }

  /** Writes the melody: four notes per bar, half a beat apart, the note of
      each beat taken from its draw. */
  method WriteMelody(midi: MidiFile, draws: seq<MelodyDraw>)
    requires midi.numTracks == NumTracks
    requires |draws| == Bars * BeatsPerBar
    requires forall k :: 0 <= k < |draws| ==> ValidDraw(draws[k])
    modifies midi
    ensures midi.events == old(midi.events) + MelodyNotes(draws)
  {
    ghost var before := midi.events;
    for bar := 0 to Bars
      invariant midi.events == before + MelodyNotes(draws[..BeatsPerBar * bar])
    {
      WriteBar(midi, draws, bar, before);
    }
    assert draws[..BeatsPerBar * Bars] == draws;
  }

  /** Writes the four notes of bar `bar`, extending the melody written so far
      by that bar's notes. */
  method WriteBar(midi: MidiFile, draws: seq<MelodyDraw>, bar: nat, ghost before: seq<Event>)
    requires midi.numTracks == NumTracks
    requires forall k :: 0 <= k < |draws| ==> ValidDraw(draws[k])
    requires BeatsPerBar * (bar + 1) <= |draws|
    requires midi.events == before + MelodyNotes(draws[..BeatsPerBar * bar])
    modifies midi
    ensures midi.events == before + MelodyNotes(draws[..BeatsPerBar * (bar + 1)])
  {
    for beat := 0 to BeatsPerBar
      invariant midi.events == before + MelodyNotes(draws[..BeatsPerBar * bar + beat])
    {
      var k := BeatsPerBar * bar + beat;
      var draw := draws[k];
      var pitch := BasePitch + Scale[draw.step];
      var duration := Durations[draw.length];
      // bar * 2 + beat * 0.5 beats, in half-beats
      midi.AddNote(MelodyTrack, MelodyChannel, pitch, BarLength * bar + beat, duration, draw.velocity);
      MelodyNotesStep(draws, bar, beat);
    }
  }
}
