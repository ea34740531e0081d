# Random MIDI loop generator — a Dafny model

`generate_music.py` is a standalone loop generator; none of the repository's pages call it. Its function `generate_random_loop` picks one of eight named chord progressions or silence ("無音"). It then picks a chord instrument and a different melody instrument. It writes a two-track MIDI file at 100 BPM:

- track 0 (channel 0) holds the chords, one chord per two-beat slot;
- track 1 (channel 1) holds a 32-note melody on the C major scale.

It then returns the output path, the progression name and both instrument names.

This project models that procedure as a deterministic one. Every random draw is an input, collected in `GenerateMusic.Choices`:

- the progression index (0..8, where 8 is silence);
- the chord-instrument index;
- the successive melody-instrument draws;
- one `(scale step, length, velocity)` draw per melody note.

Times are counted in half-beats, so every onset and duration is an integer. A chord slot `i` starts at beat `2·i`, which is half-beat `4·i`. A melody note at bar `b`, beat `t` starts at `b·2 + t·0.5` beats, which is half-beat `4·b + t`.

Files:

- `tables.dfy` (module `Tables`): the progression table, the instrument lists and the instrument-to-program map.
- `midi.dfy` (module `Midi`): the MIDI file as a class whose event log the tempo, program-change and note calls append to.
- `schedule.dfy` (module `Schedule`): the chord slots, chord notes and melody notes as functions, with their lemmas.
- `paths.dfy` (module `Paths`): the `.wav` to `.mid` path rewrite.
- `generate_music.dfy` (module `GenerateMusic`): the generator method, the redraw loop and lemmas about one whole call.

The model follows the code of `generate_music.py`.

## Model

| member | source | states |
|---|---|---|
| `Tables.ProgressionTableShape` | generate_music.py:5-15 | The table's keys are exactly the eight listed names, which are distinct. Silence is not a key. There are nine choices, and choice `i` is silence exactly when `i == 8`. Every progression has 3, 4 or 8 chords. |
| `Tables.ChoiceIsKnown` | generate_music.py:33 | Every drawn choice is silence or a table key, so the table lookup never fails. |
| `Tables.InstrumentListsDisjoint` | generate_music.py:18-26 | No instrument is in both lists, and the twelve names are pairwise distinct. |
| `Tables.Enumerate` | generate_music.py:28 | The dict comprehension over `enumerate` has exactly the listed names as keys. Each name maps to a position holding that name, and to the last such position. |
| `Tables.EnumerateDistinct` | generate_music.py:28 | With distinct names, each name maps to exactly its own position. |
| `Tables.InstrumentToNumber` | generate_music.py:28 | Builds the instrument-to-program map by enumerating the chord list followed by the melody list. `InstrumentNumbers` and `InstrumentNumbersBijective` characterise it. |
| `Tables.InstrumentNumbers` | generate_music.py:28 | Chord instrument `i` maps to program `i` (0..5). Melody instrument `j` maps to program `6 + j` (6..11). |
| `Tables.InstrumentNumbersBijective` | generate_music.py:28 | The map is defined on exactly the twelve instruments, its values are exactly 0..11, and it is injective. |
| `Tables.InstrumentPrograms` | generate_music.py:47-48 | Each instrument drawn for a program change is in the map, with program number `chord` or `6 + melody`. |
| `Midi.MidiFile.constructor` | generate_music.py:42 | A new two-track file starts with an empty event log. |
| `Midi.MidiFile.AddTempo` | generate_music.py:44-45 | Appends exactly one tempo event and changes nothing else. |
| `Midi.MidiFile.AddProgramChange` | generate_music.py:47-48 | Appends exactly one program-change event. |
| `Midi.MidiFile.AddNote` | generate_music.py:60 | Appends exactly one note event with the given track, channel, pitch, onset, duration and velocity. |
| `Schedule.RepeatedSlots` | generate_music.py:53 | `(pattern * 2)[:8]` has `min(2·len(pattern), 8)` slots, and slot `i` is `pattern[i mod len(pattern)]`. |
| `Schedule.ChordSlots` | generate_music.py:51-55 | The slots of a choice number at most 8. For a table progression, slot `i` is the progression's chord `i mod n`. Silence gives 8 empty slots. `ChordSlotCounts` gives the exact count. |
| `Schedule.ChordSlotCounts` | generate_music.py:51-55 | Every table progression fills 8 slots except "Ⅱ-Ⅴ-Ⅰ", which fills 6. Silence also gives 8 slots. |
| `Schedule.SlotNotes` | generate_music.py:59-60 | A slot has one note per chord tone. Note `k` sounds tone `k` on track 0, channel 0, at half-beat `4·slot`, lasting 4 half-beats, with velocity 80. |
| `Schedule.SlotNotesShape` | generate_music.py:59-60 | An event is a note of the slot exactly when it is that slot's track-0 note for one of the chord's tones. |
| `Schedule.ChordNotes` | generate_music.py:58-60 | There is one chord note per chord tone of every slot: as many notes as the sum of the chord sizes. `ChordNoteMembership` says which notes they are. |
| `Schedule.ChordNoteMembership` | generate_music.py:58-60 | An event is a chord note if and only if it is a track-0, channel-0 note of 2 beats with velocity 80 that sounds a tone of the chord in some slot `i`, starting at half-beat `4·i`. |
| `Schedule.ChordNotesTrack` | generate_music.py:60 | Filtering the chord notes by track 0 keeps all of them, and filtering by any other track keeps none. |
| `Schedule.SlotNotesTrack` | generate_music.py:60 | The same track property holds for the notes of one slot. |
| `Schedule.SilenceHasNoChordNotes` | generate_music.py:54-60 | With silence chosen, no chord note is written. |
| `Schedule.MelodyNote` | generate_music.py:66-69 | Builds the note of one beat from its draw. `MelodyNoteInRange` and `MelodyNotesShape` characterise it. |
| `Schedule.MelodyNoteInRange` | generate_music.py:66-69 | The note of one valid draw is on track 1, channel 1. Its pitch is in {60,62,64,65,67,69,71,72}, its length is 0.5 or 1 beat, and its velocity is in 70..110. |
| `Schedule.MelodyNotes` | generate_music.py:63-69 | There is one melody note per draw. `MelodyNotesShape` gives each note. |
| `Schedule.MelodyNotesShape` | generate_music.py:64-69 | Note `k` is on track 1, channel 1, and starts at half-beat `k`. Its pitch is `60 + scale[step]`, its duration is the drawn length (1 or 2 half-beats) and its velocity is the drawn velocity. |
| `Schedule.CMajorPitchesAreScale` | generate_music.py:66 | A pitch is one of the eight melody pitches exactly when it is 60 plus a step of the scale list. Every such pitch lies in 60..72 and its pitch class is in C major. |
| `Schedule.MelodyNoteRanges` | generate_music.py:63-69 | Every melody note keeps the bounds of `MelodyNoteInRange` and starts before half-beat `len(draws)`. |
| `Schedule.MelodyNotesTrack` | generate_music.py:69 | Filtering the melody notes by track 1 keeps all of them, and filtering by any other track keeps none. |
| `Paths.WavToMid` | generate_music.py:72 | Computes `output_path.replace(".wav", ".mid")`, scanning left to right. `WavToMidSplit` and `WavToMidUnchanged` determine the result on every path. |
| `Paths.WavToMidLength` | generate_music.py:72 | The replacement keeps the path's length. |
| `Paths.WavToMidRemovesAll` | generate_music.py:72 | No ".wav" is left anywhere in the MIDI path. |
| `Paths.WavToMidUnchanged` | generate_music.py:72 | A path without ".wav" is returned unchanged. |
| `Paths.WavToMidSuffix` | generate_music.py:72 | An output path ending in ".wav" gives a MIDI path ending in ".mid". |
| `Paths.WavToMidSplit` | generate_music.py:72 | At the first ".wav" of a path, the rewrite keeps everything before it unchanged, turns that ".wav" into ".mid" and continues on the rest. With `WavToMidUnchanged`, this fixes the result for every path. |
| `Paths.DotFreeStem` | generate_music.py:72 | A stem without '.' followed by ".wav" gives the same stem followed by ".mid". |
| `Paths.DefaultMidPath` | generate_music.py:31 | The default output path "temp_audio/random_loop.wav" gives "temp_audio/random_loop.mid". |
| `GenerateMusic.DrawMelodyInstrument` | generate_music.py:38-40 | The redraw loop returns the first draw that differs from the chord instrument. It states that all earlier draws equal the chord instrument. |
| `GenerateMusic.FirstMelodyDrawKept` | generate_music.py:37-40 | No melody draw ever equals the chord instrument. |
| `GenerateMusic.ChooseInstruments` | generate_music.py:37-40 | The chord instrument is the drawn one. The melody instrument is the first melody draw, and it differs from the chord instrument. |
| `GenerateMusic.Header` | generate_music.py:44-48 | Builds the two tempo events and the two program changes. `LoopTempos`, `LoopPrograms` and `HeaderHasNoNotes` fix its entries and its note content. |
| `GenerateMusic.LoopEvents` | generate_music.py:42-69 | The whole log of one call holds the 4 header events, one note per chord tone of every slot, and 32 melody notes. |
| `GenerateMusic.HeaderHasNoNotes` | generate_music.py:44-48 | The two tempo events and two program changes contain no notes. |
| `GenerateMusic.LoopEventsOn` | generate_music.py:42-69 | Filtering the whole log by a track gives the filtered chord notes followed by the filtered melody notes. |
| `GenerateMusic.LoopTracks` | generate_music.py:58-69 | Track 0 holds exactly the chord notes, as many as the sum of chord sizes. Track 1 holds exactly the melody notes, 32 of them. |
| `GenerateMusic.SilentLoop` | generate_music.py:51-60 | With silence chosen, track 0 has no notes and track 1 still has 32. |
| `GenerateMusic.LoopChordNotes` | generate_music.py:58-60 | A note is on track 0 if and only if it is a channel-0 note of 2 beats with velocity 80 sounding a tone of slot `i` from half-beat `4·i`. |
| `GenerateMusic.LoopNoteTracks` | generate_music.py:60-69 | Every note the call writes is on track 0 or track 1. |
| `GenerateMusic.LoopMelody` | generate_music.py:63-69 | Track-1 note `k` is on channel 1 and starts at half-beat `k`, which is bar `k div 4`, beat `k mod 4`. It has a C major pitch in 60..72, a length of 0.5 or 1 beat and a velocity in 70..110. |
| `GenerateMusic.LoopTempos` | generate_music.py:44-45 | The log starts with a tempo of 100 BPM at time 0 on track 0, then on track 1. |
| `GenerateMusic.LoopPrograms` | generate_music.py:47-48 | The chord track gets program `chordIndex` (0..5). The melody track gets `6 + melodyIndex` (6..11). The two always differ. |
| `GenerateMusic.WriteHeader` | generate_music.py:44-48 | The two tempo calls and two program-change calls append exactly `Header(chordInst, melodyInst)`. |
| `GenerateMusic.WriteChords` | generate_music.py:58-60 | The nested loops append exactly `ChordNotes(chords)` to the log. |
| `GenerateMusic.WriteMelody` | generate_music.py:63-69 | The loop over the 8 bars appends exactly `MelodyNotes(draws)`. |
| `GenerateMusic.WriteBar` | generate_music.py:65-69 | The inner loop over four beats extends the melody written so far by exactly the notes of bar `bar`. |
| `GenerateMusic.GenerateRandomLoop` | generate_music.py:31-89 | One call creates a fresh two-track file whose log is exactly the tempo, program changes, chord notes and melody notes. It returns the output path, the chosen progression and both instruments, with different instruments, and the MIDI path `WavToMid(outputPath)`. |

## Left out

- The `random` module: every draw is an input (`Choices`). `ValidChoices` admits exactly the values the draws can return: indices in range, velocities in 70..110, and one draw per melody note.
- `GenerateMusic.DrawMelodyInstrument` requires that some supplied draw differs from the avoided instrument. The source loop would redraw forever otherwise. In this program the first draw always differs (`FirstMelodyDrawKept`).
- The `print` of the chosen progression (generate_music.py:34): console output only.
- MIDI serialisation (`MIDIFile` internals, `writeFile`), `os.makedirs` and `open` (generate_music.py:73-75): file I/O and a foreign library. The file is modelled as its event log, and track numbers are checked against the file's track count.
- The FluidSynth rendering (generate_music.py:77-82): an external process.
- GenerateMusic.GenerateRandomLoop always returns, but the source does not always. `os.makedirs` raises `FileNotFoundError` for an output path with no directory part (generate_music.py:73), and a failing FluidSynth run raises `CalledProcessError` (generate_music.py:82). For a path without ".wav", `WavToMid` returns the path itself, so the MIDI file and the rendered audio are the same file (generate_music.py:72). The model does not capture that overwrite.
- Floating-point beat times: represented exactly as integer half-beats, because every time the source uses is a multiple of 0.5 beat.
- `app.py`, `save_to_sheet.py` and the `pages/` scripts: the survey pages. They play dataset files, mix dataset stems (trimmed, summed and peak-normalised, or pitch-shifted), reject duplicate ranks and derive preference bits from the ranks. None of them calls the generator, so that page logic lies outside the generator modelled here.
