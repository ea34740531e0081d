/** The module-level tables of the loop generator: the chord progressions,
    the two instrument lists and the instrument-to-program map. */
module Tables {

  /** A chord is the list of MIDI note numbers sounded together. */
  type Chord = seq<int>

  /** The extra progression choice that writes no chords at all. */
  const Silence: string := "無音"

  /** The keys of the progression table, in the table's (insertion) order. */
  const ProgressionNames: seq<string> :=
    ["王道進行", "カノン進行", "循環進行", "小室進行",
     "ロック進行", "哀愁進行", "Ⅱ-Ⅴ-Ⅰ", "モーダル進行"]

  /** Each named progression as its list of chords. */
  const ChordProgressions: map<string, seq<Chord>> := map[
    "王道進行" := [[60,64,67], [67,71,74], [69,72,76], [65,69,72]],
    "カノン進行" := [[60,64,67], [67,71,74], [69,72,76], [64,67,71],
                     [65,69,72], [60,64,67], [65,69,72], [67,71,74]],
    "循環進行" := [[60,64,67], [69,72,76], [62,65,69], [67,71,74]],
    "小室進行" := [[69,72,76], [65,69,72], [67,71,74], [60,64,67]],
    "ロック進行" := [[60,64,67], [65,69,72], [67,71,74], [60,64,67]],
    "哀愁進行" := [[69,72,76], [65,69,72], [60,64,67], [67,71,74]],
    "Ⅱ-Ⅴ-Ⅰ" := [[62,65,69,72], [67,71,74,77], [60,64,67,71]],
    "モーダル進行" := [[60,64,67,71], [62,65,69,72], [64,67,71,74], [65,69,72,76]]
  ]

  /** What the progression draw picks from: every table key, then the silence option. */
  const ProgressionChoices: seq<string> := ProgressionNames + [Silence]

  const ChordInstruments: seq<string> :=
    ["Acoustic Grand Piano", "Electric Piano 1", "Electric Guitar (clean)",
     "Acoustic Guitar (steel)", "String Ensemble 1", "Pad 1 (new age)"]

  const MelodyInstruments: seq<string> :=
    ["Lead 1 (square)", "Lead 2 (sawtooth)", "Flute", "Violin",
     "Synth Brass 1", "Pad 8 (sweep)"]

  ghost predicate Distinct<T>(s: seq<T>)
  {
    forall i, j :: 0 <= i < j < |s| ==> s[i] != s[j]
  }

  /** The dictionary `{name: i for i, name in enumerate(names)}`: each name
      is bound to its position, a later duplicate overwriting an earlier one. */
  function Enumerate(names: seq<string>): (m: map<string, nat>)
    ensures m.Keys == set i | 0 <= i < |names| :: names[i]
    ensures forall name :: name in m ==> m[name] < |names| && names[m[name]] == name
    ensures forall name :: name in m ==> forall j :: m[name] < j < |names| ==> names[j] != name
  {
    if names == [] then map[]
    else
      var init := names[..|names| - 1];
      assert forall i :: 0 <= i < |init| ==> init[i] == names[i];
      Enumerate(init)[names[|names| - 1] := |names| - 1]
  }

  /** The program number of each instrument: its position in the chord list
      followed by the melody list. */
  function InstrumentToNumber(): map<string, nat>
  {
    Enumerate(ChordInstruments + MelodyInstruments)
  }

  /** With no duplicate names, every name is bound to exactly its own position. */
  lemma {:induction false} EnumerateDistinct(names: seq<string>, i: nat)
    requires Distinct(names)
    requires i < |names|
    ensures names[i] in Enumerate(names) && Enumerate(names)[names[i]] == i
  {
    var m := Enumerate(names);
    assert names[i] in m.Keys;
    var k := m[names[i]];
    assert names[k] == names[i];
  }

  /** The progression table has exactly the listed names as keys, the names
      are distinct, and the silence option is not one of them. */
  lemma ProgressionTableShape()
    ensures forall name :: name in ChordProgressions <==> name in ProgressionNames
    ensures Distinct(ProgressionNames)
    ensures Silence !in ChordProgressions
    ensures Distinct(ProgressionChoices) && |ProgressionChoices| == 9
    ensures forall i :: 0 <= i < |ProgressionChoices| ==>
      (ProgressionChoices[i] == Silence <==> i == |ProgressionNames|) &&
      (ProgressionChoices[i] == Silence || ProgressionChoices[i] in ChordProgressions)
    ensures forall name :: name in ChordProgressions ==> |ChordProgressions[name]| in {3, 4, 8}
  {
  }

  /** Each progression choice is the silence option or a key of the table. */
  lemma ChoiceIsKnown(i: nat)
    requires i < |ProgressionChoices|
    ensures ProgressionChoices[i] == Silence || ProgressionChoices[i] in ChordProgressions
  {
    ProgressionTableShape();
  }

  /** No instrument is in both lists, and no name occurs twice overall. */
  lemma InstrumentListsDisjoint()
    ensures forall i, j :: 0 <= i < |ChordInstruments| && 0 <= j < |MelodyInstruments| ==>
      ChordInstruments[i] != MelodyInstruments[j]
    ensures Distinct(ChordInstruments + MelodyInstruments)
  {
  }

  /** The instrument map sends the chord instruments to 0..5 and the melody
      instruments to 6..11. */
  lemma InstrumentNumbers()
    ensures forall i :: 0 <= i < |ChordInstruments| ==>
      ChordInstruments[i] in InstrumentToNumber() && InstrumentToNumber()[ChordInstruments[i]] == i
    ensures forall j :: 0 <= j < |MelodyInstruments| ==>
      MelodyInstruments[j] in InstrumentToNumber() && InstrumentToNumber()[MelodyInstruments[j]] == 6 + j
  {
    var all := ChordInstruments + MelodyInstruments;
    InstrumentListsDisjoint();
    forall i | 0 <= i < |ChordInstruments|
      ensures ChordInstruments[i] in InstrumentToNumber() && InstrumentToNumber()[ChordInstruments[i]] == i
    {
      EnumerateDistinct(all, i);
      assert all[i] == ChordInstruments[i];
    }
    forall j | 0 <= j < |MelodyInstruments|
      ensures MelodyInstruments[j] in InstrumentToNumber() && InstrumentToNumber()[MelodyInstruments[j]] == 6 + j
    {
      EnumerateDistinct(all, 6 + j);
      assert all[6 + j] == MelodyInstruments[j];
    }
  }

  /** The instrument map is defined on exactly the twelve instruments and is
      a bijection from them onto 0..11. */
  lemma InstrumentNumbersBijective()
    ensures forall name :: name in InstrumentToNumber() <==> name in ChordInstruments || name in MelodyInstruments
    ensures forall n: nat :: n in InstrumentToNumber().Values <==> n < 12
    ensures forall a, b :: a in InstrumentToNumber() && b in InstrumentToNumber() && a != b ==>
      InstrumentToNumber()[a] != InstrumentToNumber()[b]
  {
    var all := ChordInstruments + MelodyInstruments;
    var m := InstrumentToNumber();
    InstrumentListsDisjoint();
    forall name ensures name in m <==> name in ChordInstruments || name in MelodyInstruments {
      if name in ChordInstruments || name in MelodyInstruments {
        assert name in all;
      }
    }
    forall n: nat | n < 12 ensures n in m.Values {
      EnumerateDistinct(all, n);
    }
  }

  /** The program numbers of one chord instrument and one melody instrument. */
  lemma InstrumentPrograms(chord: nat, melody: nat)
    requires chord < |ChordInstruments| && melody < |MelodyInstruments|
    ensures ChordInstruments[chord] in InstrumentToNumber() && InstrumentToNumber()[ChordInstruments[chord]] == chord
    ensures MelodyInstruments[melody] in InstrumentToNumber() && InstrumentToNumber()[MelodyInstruments[melody]] == 6 + melody
  {
    InstrumentNumbers();
  }
}
