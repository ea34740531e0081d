/** The MIDI file's path: the audio output path with every ".wav" replaced
    by ".mid", the way the string replace of the generator does it. */
module Paths {

  const Wav: string := ".wav"
  const Mid: string := ".mid"

  /** The generator's default audio output path, "temp_audio/random_loop.wav". */
  const DefaultStem: string := "temp_audio/random_loop"
  const DefaultOutputPath: string := DefaultStem + Wav

  /** `s` holds ".wav" starting at position `i`. */
  predicate WavAt(s: string, i: int)
  {
    0 <= i && i + |Wav| <= |s| && s[i..i + |Wav|] == Wav
  }

  predicate EndsWith(s: string, suffix: string)
  {
    |suffix| <= |s| && s[|s| - |suffix|..] == suffix
  }

  /** Replaces every ".wav" by ".mid", scanning from the left and resuming
      after each replaced occurrence. */
  function WavToMid(path: string): string
    decreases |path|
  {
    if |path| < |Wav| then path
    else if path[..|Wav|] == Wav then Mid + WavToMid(path[|Wav|..])
    else [path[0]] + WavToMid(path[1..])
  }

  /** ".wav" and ".mid" have the same length, so the path keeps its length. */
  lemma {:induction false} WavToMidLength(path: string)
    ensures |WavToMid(path)| == |path|
    decreases |path|
  {
    if |path| >= |Wav| {
      if path[..|Wav|] == Wav {
        WavToMidLength(path[|Wav|..]);
      } else {
        WavToMidLength(path[1..]);
      }
    }
  }

  /** Both strings start with '.', so the first character never changes. */
  lemma WavToMidFirst(path: string)
    requires path != []
    ensures WavToMid(path) != [] && WavToMid(path)[0] == path[0]
  {
  }

  /** The result never starts with ".wav": a ".wav" at the front is replaced,
      and any other front differs from ".wav" in a character the scan keeps. */
  lemma NoWavAtFront(path: string)
    ensures !WavAt(WavToMid(path), 0)
  {
    var r := WavToMid(path);
    if |path| >= |Wav| && path[..|Wav|] != Wav && WavAt(r, 0) {
      assert r[1] == 'w' && r[2] == 'a' && r[3] == 'v' by {
        assert r[..|Wav|] == Wav;
      }
      var p1, p2, p3 := path[1..], path[2..], path[3..];
      assert r == [path[0]] + WavToMid(p1);
      WavToMidFirst(p1);
      assert path[1] == 'w';
      assert p1[..|Wav|] != Wav;
      assert WavToMid(p1) == [p1[0]] + WavToMid(p2) by { assert |p1| >= |Wav|; }
      WavToMidFirst(p2);
      assert path[2] == 'a';
      assert p2 == p1[1..];
      assert WavToMid(p2) == [p2[0]] + WavToMid(p3);
      WavToMidFirst(p3);
      assert false;
    }
  }

  /** No ".wav" is left anywhere in the result. */
  lemma {:induction false} WavToMidRemovesAll(path: string)
    ensures forall i :: !WavAt(WavToMid(path), i)
    decreases |path|
  {
    var r := WavToMid(path);
    if |path| >= |Wav| {
      if path[..|Wav|] == Wav {
        var rest := path[|Wav|..];
        WavToMidRemovesAll(rest);
        assert r == Mid + WavToMid(rest);
        forall i | 0 <= i < |Wav| && i + |Wav| <= |r| ensures !WavAt(r, i) {
          assert r[i] == Mid[i];
        }
        forall i | |Wav| <= i && i + |Wav| <= |r| ensures !WavAt(r, i) {
          assert r[i..i + |Wav|] == WavToMid(rest)[i - |Wav|..i];
          assert !WavAt(WavToMid(rest), i - |Wav|);
        }
      } else {
        var rest := path[1..];
        WavToMidRemovesAll(rest);
        NoWavAtFront(path);
        assert r == [path[0]] + WavToMid(rest);
        forall i | 1 <= i && i + |Wav| <= |r| ensures !WavAt(r, i) {
          assert r[i..i + |Wav|] == WavToMid(rest)[i - 1..i - 1 + |Wav|];
          assert !WavAt(WavToMid(rest), i - 1);
        }
      }
    }
  }

  /** A path without ".wav" is returned unchanged. */
  lemma {:induction false} WavToMidUnchanged(path: string)
    requires forall i :: !WavAt(path, i)
    ensures WavToMid(path) == path
    decreases |path|
  {
    if |path| >= |Wav| {
      assert !WavAt(path, 0);
      var rest := path[1..];
      forall i ensures !WavAt(rest, i) {
        assert !WavAt(path, i + 1);
      }
      WavToMidUnchanged(rest);
      assert path == [path[0]] + rest;
    }
  }

  /** Two occurrences of ".wav" never overlap: the '.' of the later one
      would have to be one of "wav". */
  lemma WavNoOverlap(s: string, i: int, j: int)
    requires WavAt(s, i) && WavAt(s, j) && i <= j
    ensures i == j || i + |Wav| <= j
  {
    assert s[j] == s[j..j + |Wav|][0] == '.';
    if j < i + |Wav| {
      assert s[j] == s[i..i + |Wav|][j - i];
    }
  }

  /** Putting characters in front keeps a suffix. */
  lemma EndsWithPrepend(x: string, s: string, suffix: string)
    requires EndsWith(s, suffix)
    ensures EndsWith(x + s, suffix)
  {
    assert (x + s)[|x + s| - |suffix|..] == s[|s| - |suffix|..];
  }

  /** A path ending in ".wav" and starting with a ".wav" that is not its
      last one: the rest after that first ".wav" still ends in ".wav". */
  lemma SuffixAfterFrontWav(path: string)
    requires EndsWith(path, Wav) && |path| > |Wav| && path[..|Wav|] == Wav
    ensures EndsWith(path[|Wav|..], Wav)
  {
    assert WavAt(path, 0) && WavAt(path, |path| - |Wav|);
    WavNoOverlap(path, 0, |path| - |Wav|);
    assert path[|Wav|..][|path| - 2 * |Wav|..] == path[|path| - |Wav|..];
  }

  /** A path ending in ".wav" but not starting with it is longer than ".wav",
      and its tail still ends in ".wav". */
  lemma SuffixAfterFirstChar(path: string)
    requires EndsWith(path, Wav) && path[..|Wav|] != Wav
    ensures |path| > |Wav| && EndsWith(path[1..], Wav)
  {
    assert path[1..][|path| - 1 - |Wav|..] == path[|path| - |Wav|..];
  }

  /** An audio path ending in ".wav" gives a MIDI path ending in ".mid". */
  lemma {:induction false} WavToMidSuffix(path: string)
    requires EndsWith(path, Wav)
    ensures EndsWith(WavToMid(path), Mid)
    decreases |path|
  {
    if path[..|Wav|] == Wav {
      var rest := path[|Wav|..];
      assert WavToMid(path) == Mid + WavToMid(rest);
      if |path| == |Wav| {
        assert WavToMid(rest) == [];
        assert WavToMid(path) == Mid;
      } else {
        SuffixAfterFrontWav(path);
        WavToMidSuffix(rest);
        EndsWithPrepend(Mid, WavToMid(rest), Mid);
      }
    } else {
      SuffixAfterFirstChar(path);
      var rest := path[1..];
      assert WavToMid(path) == [path[0]] + WavToMid(rest);
      WavToMidSuffix(rest);
      EndsWithPrepend([path[0]], WavToMid(rest), Mid);
    }
  }

  /** A stem without '.' followed by ".wav" becomes the stem followed by
      ".mid": the appended ".wav" is the only one. */
  lemma DotFreeStem(stem: string)
    requires forall k :: 0 <= k < |stem| ==> stem[k] != '.'
    ensures WavToMid(stem + Wav) == stem + Mid
  {
    forall i ensures !WavAt(stem + Wav, i) || i == |stem| {
      if WavAt(stem + Wav, i) {
        assert (stem + Wav)[i] == (stem + Wav)[i..i + |Wav|][0] == '.';
      }
    }
    WavToMidSplit(stem, []);
    assert stem + Wav + [] == stem + Wav;
    assert stem + Mid + WavToMid([]) == stem + Mid;
  }

  /** The MIDI path of the generator's default output path. */
  lemma DefaultMidPath()
    ensures WavToMid(DefaultOutputPath) == DefaultStem + Mid
  {
    DotFreeStem(DefaultStem);
  }

  /** Dropping the first character keeps ".wav" absent before the final one. */
  lemma WavFreeTail(prefix: string)
    requires prefix != []
    requires forall i :: !WavAt(prefix + Wav, i) || i == |prefix|
    ensures forall i :: !WavAt(prefix[1..] + Wav, i) || i == |prefix| - 1
  {
    var tail := prefix[1..];
    forall i | WavAt(tail + Wav, i) ensures i == |tail| {
      assert (tail + Wav)[i..i + |Wav|] == (prefix + Wav)[i + 1..i + 1 + |Wav|];
      assert WavAt(prefix + Wav, i + 1);
    }
  }

  /** The first ".wav" of a path: everything before it is kept, it becomes
      ".mid", and the rewrite carries on with what follows it. */
  lemma {:induction false} WavToMidSplit(prefix: string, rest: string)
    requires forall i :: !WavAt(prefix + Wav, i) || i == |prefix|
    ensures WavToMid(prefix + Wav + rest) == prefix + Mid + WavToMid(rest)
    decreases |prefix|
  {
    var path := prefix + Wav + rest;
    if prefix == [] {
      assert path[..|Wav|] == Wav;
      assert path[|Wav|..] == rest;
    } else {
      assert !WavAt(prefix + Wav, 0);
      assert path[..|Wav|] == (prefix + Wav)[..|Wav|];
      var tail := prefix[1..];
      assert path[1..] == tail + Wav + rest;
      WavFreeTail(prefix);
      WavToMidSplit(tail, rest);
      assert WavToMid(path) == [prefix[0]] + WavToMid(tail + Wav + rest);
      assert prefix == [prefix[0]] + tail;
    }
  }
}
