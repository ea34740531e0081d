/** The part of a MIDI file the loop generator writes to: an event log that
    the tempo, program-change and note calls append to. Time is counted in
    half-beats, so every onset and duration the generator uses is a whole number. */
module Midi {

  datatype Event =
    | Tempo(track: nat, time: nat, bpm: nat)
    | ProgramChange(track: nat, channel: nat, time: nat, program: nat)
    | Note(track: nat, channel: nat, pitch: int, onset: nat, duration: nat, velocity: int)

  /** The note events of `events` that are on `track`, in order. */
  function NotesOn(events: seq<Event>, track: nat): (r: seq<Event>)
    ensures |r| <= |events|
  {
    if events == [] then []
    else
      var last := events[|events| - 1];
      NotesOn(events[..|events| - 1], track) + (if last.Note? && last.track == track then [last] else [])
  }

  lemma {:induction false} NotesOnAppend(a: seq<Event>, b: seq<Event>, track: nat)
    ensures NotesOn(a + b, track) == NotesOn(a, track) + NotesOn(b, track)
  {
    if b == [] {
      assert a + b == a;
    } else {
      var ab, init, last := a + b, b[..|b| - 1], b[|b| - 1];
      assert ab[..|ab| - 1] == a + init && ab[|ab| - 1] == last;
      var tail := if last.Note? && last.track == track then [last] else [];
      calc {
        NotesOn(ab, track);
        NotesOn(a + init, track) + tail;
        { NotesOnAppend(a, init, track); }
        NotesOn(a, track) + NotesOn(init, track) + tail;
        NotesOn(a, track) + NotesOn(b, track);
      }
    }
  }

  /** A prefix without notes on the track drops out of the filter. */
  lemma NotesOnSplit(h: seq<Event>, a: seq<Event>, b: seq<Event>, track: nat)
    requires NotesOn(h, track) == []
    ensures NotesOn(h + a + b, track) == NotesOn(a, track) + NotesOn(b, track)
  {
    NotesOnAppend(h + a, b, track);
    NotesOnAppend(h, a, track);
  }

  /** Filtering keeps exactly the notes on the track. */
  lemma {:induction false} NotesOnMembers(events: seq<Event>, track: nat)
    ensures forall e :: e in NotesOn(events, track) <==> e in events && e.Note? && e.track == track
  {
    if events != [] {
      var init := events[..|events| - 1];
      NotesOnMembers(init, track);
      assert events == init + [events[|events| - 1]];
    }
  }

  /** A log without note events has no notes on any track. */
  lemma NoNotes(events: seq<Event>, track: nat)
    requires forall i :: 0 <= i < |events| ==> !events[i].Note?
    ensures NotesOn(events, track) == []
  {
  }

  /** A multi-track MIDI file under construction, seen as the log of the
      events added to it. */
  class MidiFile {
    const numTracks: nat
    var events: seq<Event>

    constructor (numTracks: nat)
      ensures this.numTracks == numTracks && events == []
    {
      this.numTracks := numTracks;
      events := [];
    }

    method AddTempo(track: nat, time: nat, bpm: nat)
      requires track < numTracks
      modifies this
      ensures events == old(events) + [Tempo(track, time, bpm)]
    {
      events := events + [Tempo(track, time, bpm)];
    }

    method AddProgramChange(track: nat, channel: nat, time: nat, program: nat)
      requires track < numTracks
      modifies this
      ensures events == old(events) + [ProgramChange(track, channel, time, program)]
    {
      events := events + [ProgramChange(track, channel, time, program)];
    }

    method AddNote(track: nat, channel: nat, pitch: int, onset: nat, duration: nat, velocity: int)
      requires track < numTracks
      modifies this
      ensures events == old(events) + [Note(track, channel, pitch, onset, duration, velocity)]
    {
      events := events + [Note(track, channel, pitch, onset, duration, velocity)];
    }
  }
}
