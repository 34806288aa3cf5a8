/**
 * Extraction of the drum track of a performance and its "kick on the beat"
 * score, with the accept/reject decision each worker makes and the filter
 * that collects the accepted files.
 */
module DrumsExtract {
  import opened Wrappers
  import opened Midi

  /** The exceptions a worker can meet; each makes it return None. */
  datatype Error =
    | ParseFailed                       // PrettyMIDI(path) raised
    | InvalidNumberOfDrums(count: nat)  // "Invalid number of drums"
    | NoInstrument                      // instruments[0] raised IndexError
    | NoBeats                           // the ratio divided by zero
    | NotOnBeat(ratio: real)            // "Not on beat"
    | WriteFailed                       // writing the output file raised

  // ---------------------------------------------------------------------------
  // Drum filter and merge
  // ---------------------------------------------------------------------------

  /** The percussive instruments of `insts`, in their original order. */
  function DrumsOnly(insts: Performance): (r: Performance)
    ensures |r| <= |insts|
    ensures forall i :: 0 <= i < |r| ==> r[i].isDrum
    ensures forall x :: x in r <==> x in insts && x.isDrum
  {
    if insts == [] then []
    else if insts[0].isDrum then [insts[0]] + DrumsOnly(insts[1..])
    else DrumsOnly(insts[1..])
  }

  /** Filtering distributes over concatenation, so the filter keeps the original order. */
  lemma {:induction false} DrumsOnlyAppend(a: Performance, b: Performance)
    ensures DrumsOnly(a + b) == DrumsOnly(a) + DrumsOnly(b)
  {
    if a == [] {
      assert a + b == b;
    } else {
      assert (a + b)[0] == a[0];
      assert (a + b)[1..] == a[1..] + b;
      DrumsOnlyAppend(a[1..], b);
    }
  }

  /** The notes of `insts`, instrument after instrument, each in its own order. */
  function ConcatNotes(insts: Performance): seq<Note>
  {
    if insts == [] then [] else ConcatNotes(insts[..|insts| - 1]) + insts[|insts| - 1].notes
  }

  /** The number of notes the instruments of `insts` hold together. */
  function TotalNotes(insts: Performance): nat
  {
    if insts == [] then 0 else TotalNotes(insts[..|insts| - 1]) + |insts[|insts| - 1].notes|
  }

  lemma {:induction false} ConcatNotesLength(insts: Performance)
    ensures |ConcatNotes(insts)| == TotalNotes(insts)
  {
    if insts != [] {
      ConcatNotesLength(insts[..|insts| - 1]);
    }
  }

  /** A note is in the concatenation exactly when one of the instruments holds it. */
  lemma {:induction false} ConcatNotesMember(insts: Performance, n: Note)
    ensures n in ConcatNotes(insts) <==> exists i :: 0 <= i < |insts| && n in insts[i].notes
  {
    if insts != [] {
      var init := insts[..|insts| - 1];
      ConcatNotesMember(init, n);
      if n in ConcatNotes(insts) && n !in ConcatNotes(init) {
        assert n in insts[|insts| - 1].notes;
      }
      if exists i :: 0 <= i < |insts| && n in insts[i].notes {
        var i :| 0 <= i < |insts| && n in insts[i].notes;
        if i < |insts| - 1 {
          assert init[i] == insts[i];
        }
      }
    }
  }

  /**
   * Pools the notes of several drum instruments into one new drum
   * instrument with program 0, appending note after note.
   */
  method MergeDrums(drums: Performance) returns (merged: Instrument)
    ensures merged.program == 0 && merged.isDrum
    ensures merged.notes == ConcatNotes(drums)
  {
    merged := Instrument(0, true, []);
    for i := 0 to |drums|
      invariant merged == Instrument(0, true, ConcatNotes(drums[..i]))
    {
      var instrument := drums[i];
      for j := 0 to |instrument.notes|
        invariant merged == Instrument(0, true, ConcatNotes(drums[..i]) + instrument.notes[..j])
      {
        merged := merged.(notes := merged.notes + [instrument.notes[j]]);
      }
      assert drums[..i + 1][..i] == drums[..i];
    }
    assert drums[..|drums|] == drums;
  }

  /**
   * The drum-only performance extracted from `insts`: the drum instruments,
   * pooled into one when there are several, or the "invalid number of
   * drums" error.
   */
  function Extracted(insts: Performance): (r: Result<Performance, Error>)
    ensures r.Failure? <==> forall i :: 0 <= i < |insts| ==> !insts[i].isDrum
    ensures r.Failure? ==> r.error == InvalidNumberOfDrums(0)
    ensures r.Success? ==> |r.value| == 1 && r.value[0].isDrum
  {
    var drums := DrumsOnly(insts);
    var pooled := if |drums| > 1 then [Instrument(0, true, ConcatNotes(drums))] else drums;
    if |pooled| != 1 then Failure(InvalidNumberOfDrums(|pooled|)) else Success(pooled)
  }

  /** A single drum instrument is returned as it is, program and notes included. */
  lemma ExtractedSingle(insts: Performance, k: nat)
    requires k < |insts| && insts[k].isDrum
    requires forall i :: 0 <= i < |insts| && i != k ==> !insts[i].isDrum
    ensures Extracted(insts) == Success([insts[k]])
  {
    DrumsOnlyAt(insts, k);
  }

  /** With exactly one drum at index k, the filter yields just that drum. */
  lemma {:induction false} DrumsOnlyAt(insts: Performance, k: nat)
    requires k < |insts| && insts[k].isDrum
    requires forall i :: 0 <= i < |insts| && i != k ==> !insts[i].isDrum
    ensures DrumsOnly(insts) == [insts[k]]
  {
    assert insts == insts[..k] + [insts[k]] + insts[k + 1..];
    DrumsOnlyAppend(insts[..k] + [insts[k]], insts[k + 1..]);
    DrumsOnlyAppend(insts[..k], [insts[k]]);
    assert [insts[k]][1..] == [];
    NoDrums(insts[..k]);
    NoDrums(insts[k + 1..]);
  }

  lemma NoDrums(insts: Performance)
    requires forall i :: 0 <= i < |insts| ==> !insts[i].isDrum
    ensures DrumsOnly(insts) == []
  {
  }

  /**
   * Several drum instruments are merged: the one result has program 0, the
   * drum flag, the in-order concatenation of the drums' notes and so the sum
   * of their note counts.
   */
  lemma ExtractedMerged(insts: Performance)
    requires |DrumsOnly(insts)| > 1
    ensures Extracted(insts).Success?
    ensures Extracted(insts).value == [Instrument(0, true, ConcatNotes(DrumsOnly(insts)))]
    ensures |Extracted(insts).value[0].notes| == TotalNotes(DrumsOnly(insts))
  {
    ConcatNotesLength(DrumsOnly(insts));
  }

  /** Every note of the extracted track belongs to a drum instrument of the input. */
  lemma ExtractedNotesFromDrums(insts: Performance, n: Note)
    requires Extracted(insts).Success?
    requires n in Extracted(insts).value[0].notes
    ensures exists i :: 0 <= i < |insts| && insts[i].isDrum && n in insts[i].notes
  {
    var drums := DrumsOnly(insts);
    if |drums| > 1 {
      ConcatNotesMember(drums, n);
      var i :| 0 <= i < |drums| && n in drums[i].notes;
      assert drums[i] in insts;
    } else {
      assert drums[0] in insts;
    }
  }

  /** The outcome of `extract_drums(path)`, loading included. */
  function ExtractedFrom(file: MidiFile): Result<Performance, Error>
  {
    if file.parsed.None? then Failure(ParseFailed) else Extracted(file.parsed.value)
  }

  /** Loads the file, keeps its drum instruments and merges them when there are several. */
  method ExtractDrums(file: MidiFile) returns (r: Result<Performance, Error>)
    ensures r == ExtractedFrom(file)
  {
    if file.parsed.None? {
      return Failure(ParseFailed);
    }
    var drums := DrumsOnly(file.parsed.value);
    if |drums| > 1 {
      var merged := MergeDrums(drums);
      drums := [merged];
    }
    if |drums| != 1 {
      return Failure(InvalidNumberOfDrums(|drums|));
    }
    return Success(drums);
  }

  // ---------------------------------------------------------------------------
  // Kicks on the beat
  // ---------------------------------------------------------------------------

  /** Pitches 35 and 36 are the bass (kick) drums. */
  predicate IsKick(pitch: int)
  {
    pitch == 35 || pitch == 36
  }

  /**
   * Closeness of a beat and a note start, in ticks. The script compares
   * float seconds with a relative tolerance of 1e-9. Different ticks are at
   * least a tick's duration apart, far more than that tolerance, and equal
   * ticks differ at most by rounding, so closeness is equality.
   */
  predicate Close(beat: int, start: int)
  {
    beat == start
  }

  /** The start times of the kick notes, in note order. */
  function KickStarts(notes: seq<Note>): (r: seq<int>)
    ensures |r| <= |notes|
    ensures forall s :: s in r <==> exists n :: n in notes && IsKick(n.pitch) && n.start == s
  {
    if notes == [] then []
    else if IsKick(notes[0].pitch) then [notes[0].start] + KickStarts(notes[1..])
    else KickStarts(notes[1..])
  }

  /** Some kick starts close to `beat`. */
  predicate BeatHasKick(beat: int, kicks: seq<int>)
  {
    exists k :: k in kicks && Close(beat, k)
  }

  /** One flag per beat: whether a kick starts on it. */
  function Flags(beats: seq<int>, kicks: seq<int>): seq<bool>
  {
    seq(|beats|, i requires 0 <= i < |beats| => BeatHasKick(beats[i], kicks))
  }

  /**
   * Builds the on-beat flags beat by beat, stopping the search over the
   * kicks at the first close one.
   */
  method OnBeatFlags(beats: seq<int>, kicks: seq<int>) returns (flags: seq<bool>)
    ensures |flags| == |beats|
    ensures forall i :: 0 <= i < |beats| ==> flags[i] == BeatHasKick(beats[i], kicks)
  {
    flags := [];
    for b := 0 to |beats|
      invariant |flags| == b
      invariant forall i :: 0 <= i < b ==> flags[i] == BeatHasKick(beats[i], kicks)
    {
      var beat := beats[b];
      var beatHasKick := false;
      var j := 0;
      while j < |kicks|
        invariant 0 <= j <= |kicks|
        invariant forall m :: 0 <= m < j ==> !Close(beat, kicks[m])
      {
        if Close(beat, kicks[j]) {
          beatHasKick := true;
          break;
        }
        j := j + 1;
      }
      assert beatHasKick ==> j < |kicks| && Close(beat, kicks[j]);
      assert beatHasKick == BeatHasKick(beat, kicks);
      flags := flags + [beatHasKick];
    }
  }

  /** The number of true flags. */
  function CountTrue(flags: seq<bool>): (c: nat)
    ensures c <= |flags|
  {
    if flags == [] then 0 else CountTrue(flags[..|flags| - 1]) + (if flags[|flags| - 1] then 1 else 0)
  }

  lemma {:induction false} CountTrueNone(flags: seq<bool>)
    ensures CountTrue(flags) == 0 <==> forall i :: 0 <= i < |flags| ==> !flags[i]
  {
    if flags != [] {
      CountTrueNone(flags[..|flags| - 1]);
      assert forall i :: 0 <= i < |flags| - 1 ==> flags[..|flags| - 1][i] == flags[i];
    }
  }

  lemma {:induction false} CountTrueAll(flags: seq<bool>)
    ensures CountTrue(flags) == |flags| <==> forall i :: 0 <= i < |flags| ==> flags[i]
  {
    if flags != [] {
      CountTrueAll(flags[..|flags| - 1]);
      assert forall i :: 0 <= i < |flags| - 1 ==> flags[..|flags| - 1][i] == flags[i];
    }
  }

  /**
   * The fraction of the beats on which a kick of the first instrument
   * starts, or the error evaluating it raises.
   */
  function Score(drums: Performance, beats: seq<int>): (r: Result<real, Error>)
    ensures r.Failure? <==> |drums| == 0 || |beats| == 0
    ensures r.Failure? ==> r.error == (if |drums| == 0 then NoInstrument else NoBeats)
    ensures r.Success? ==> 0.0 <= r.value <= 1.0
  {
    if |drums| == 0 then Failure(NoInstrument)
    else if |beats| == 0 then Failure(NoBeats)
    else
      var count := CountTrue(Flags(beats, KickStarts(drums[0].notes)));
      assert count as real <= |beats| as real;
      Success(count as real / |beats| as real)
  }

  /** Without any kick note the score is 0. */
  lemma ScoreWithoutKicks(drums: Performance, beats: seq<int>)
    requires |drums| > 0 && |beats| > 0
    requires forall n :: n in drums[0].notes ==> !IsKick(n.pitch)
    ensures Score(drums, beats) == Success(0.0)
  {
    var kicks := KickStarts(drums[0].notes);
    NoKickStarts(drums[0].notes);
    CountTrueNone(Flags(beats, kicks));
  }

  lemma {:induction false} NoKickStarts(notes: seq<Note>)
    requires forall n :: n in notes ==> !IsKick(n.pitch)
    ensures KickStarts(notes) == []
  {
    if notes != [] {
      assert forall n :: n in notes[1..] ==> n in notes;
      NoKickStarts(notes[1..]);
    }
  }

  /** A ratio of naturals is 1 exactly when they are equal, and 0 exactly when the numerator is. */
  lemma RatioEnds(c: nat, m: nat)
    requires 0 < m
    ensures c as real / m as real == 1.0 <==> c == m
    ensures c as real / m as real == 0.0 <==> c == 0
  {
    var q := c as real / m as real;
    assert q * m as real == c as real;
  }

  /** The score is 1 exactly when a kick starts on every beat. */
  lemma ScoreOneIffEveryBeat(drums: Performance, beats: seq<int>)
    requires |drums| > 0 && |beats| > 0
    ensures Score(drums, beats) == Success(1.0) <==>
            forall i :: 0 <= i < |beats| ==> BeatHasKick(beats[i], KickStarts(drums[0].notes))
  {
    var kicks := KickStarts(drums[0].notes);
    var flags := Flags(beats, kicks);
    assert forall i :: 0 <= i < |beats| ==> flags[i] == BeatHasKick(beats[i], kicks);
    CountTrueAll(flags);
    RatioEnds(CountTrue(flags), |beats|);
  }

  /** The score is 0 exactly when no beat has a kick on it. */
  lemma ScoreZeroIffNoBeat(drums: Performance, beats: seq<int>)
    requires |drums| > 0 && |beats| > 0
    ensures Score(drums, beats) == Success(0.0) <==>
            forall i :: 0 <= i < |beats| ==> !BeatHasKick(beats[i], KickStarts(drums[0].notes))
  {
    var kicks := KickStarts(drums[0].notes);
    var flags := Flags(beats, kicks);
    assert forall i :: 0 <= i < |beats| ==> flags[i] == BeatHasKick(beats[i], kicks);
    CountTrueNone(flags);
    RatioEnds(CountTrue(flags), |beats|);
  }

  /** Collects the kick starts, flags each beat and divides the true flags by the beats. */
  method GetBassDrumsOnBeat(drums: Performance, beats: seq<int>) returns (r: Result<real, Error>)
    ensures r == Score(drums, beats)
  {
    if |drums| == 0 {
      return Failure(NoInstrument);
    }
    var kicks := KickStarts(drums[0].notes);
    var flags := OnBeatFlags(beats, kicks);
    assert flags == Flags(beats, kicks);
    var count := CountTrue(flags);
    if |flags| == 0 {
      return Failure(NoBeats);
    }
    r := Success(count as real / |flags| as real);
  }

  // ---------------------------------------------------------------------------
  // One worker and the collection of its results
  // ---------------------------------------------------------------------------

  /** A MIDI file together with the beat grid pretty_midi reports for its drum track. */
  datatype DrumSource = DrumSource(file: MidiFile, beats: seq<int>)

  /** The dictionary a worker returns for an accepted file. */
  datatype Accepted = Accepted(path: string, drums: Performance, ratio: real)

  /**
   * The outcome of processing one file against the threshold. An accepted
   * record holds the file's path, its extracted drum track and that track's
   * score, which reaches the threshold.
   */
  function Outcome(src: DrumSource, threshold: real): (r: Result<Accepted, Error>)
    ensures r.Success? ==> r.value.ratio >= threshold && r.value.path == src.file.path
    ensures r.Success? ==> ExtractedFrom(src.file) == Success(r.value.drums)
    ensures r.Success? ==> Score(r.value.drums, src.beats) == Success(r.value.ratio)
  {
    var extracted := ExtractedFrom(src.file);
    if extracted.Failure? then Failure(extracted.error)
    else
      var score := Score(extracted.value, src.beats);
      if score.Failure? then Failure(score.error)
      else if score.value < threshold then Failure(NotOnBeat(score.value))
      else if !src.file.writable then Failure(WriteFailed)
      else Success(Accepted(src.file.path, extracted.value, score.value))
  }

  /**
   * A file is accepted exactly when it parses, has a drum instrument and a
   * beat, its score reaches the threshold and its output can be written.
   */
  lemma OutcomeAccepted(src: DrumSource, threshold: real)
    ensures Outcome(src, threshold).Success? <==>
            src.file.parsed.Some? &&
            (exists i :: 0 <= i < |src.file.parsed.value| && src.file.parsed.value[i].isDrum) &&
            |src.beats| > 0 &&
            Score(Extracted(src.file.parsed.value).value, src.beats).value >= threshold &&
            src.file.writable
  {
  }

  /** What a worker returns: the dictionary, or None when any exception occurred. */
  function AsOption(r: Result<Accepted, Error>): Option<Accepted>
  {
    if r.Success? then Some(r.value) else None
  }

  /**
   * Processes one file: extracts the drums, scores them and accepts them
   * when the score reaches the threshold; the counter goes up by one on
   * every path.
   */
  method Process(src: DrumSource, threshold: real, counter: Counter) returns (r: Option<Accepted>)
    modifies counter
    ensures counter.value == old(counter.value) + 1
    ensures r == AsOption(Outcome(src, threshold))
  {
    r := None;
    var extracted := ExtractDrums(src.file);
    if extracted.Success? {
      var score := GetBassDrumsOnBeat(extracted.value, src.beats);
      if score.Success? && score.value >= threshold && src.file.writable {
        r := Some(Accepted(src.file.path, extracted.value, score.value));
      }
    }
    counter.Increment();
  }

  /** The non-empty results, in order. */
  function Kept(results: seq<Option<Accepted>>): (r: seq<Accepted>)
    ensures |r| <= |results|
    ensures forall a :: a in r <==> Some(a) in results
  {
    if results == [] then []
    else if results[0].Some? then [results[0].value] + Kept(results[1..])
    else Kept(results[1..])
  }

  /** The results of the workers, one per source and in source order. */
  function Results(sources: seq<DrumSource>, threshold: real): (r: seq<Option<Accepted>>)
    ensures |r| == |sources|
  {
    seq(|sources|, i requires 0 <= i < |sources| => AsOption(Outcome(sources[i], threshold)))
  }

  /**
   * Every kept result is a single drum track with a ratio between the
   * threshold and 1, and it is the extracted track and score of one of the
   * sources, whose path it carries.
   */
  lemma KeptAboveThreshold(sources: seq<DrumSource>, threshold: real)
    ensures forall a :: a in Kept(Results(sources, threshold)) ==>
              threshold <= a.ratio <= 1.0 && |a.drums| == 1 && a.drums[0].isDrum &&
              exists i :: 0 <= i < |sources| && sources[i].file.path == a.path &&
                ExtractedFrom(sources[i].file) == Success(a.drums) &&
                Score(a.drums, sources[i].beats) == Success(a.ratio)
  {
    var results := Results(sources, threshold);
    forall a | a in Kept(results)
      ensures threshold <= a.ratio <= 1.0 && |a.drums| == 1 && a.drums[0].isDrum &&
              exists i :: 0 <= i < |sources| && sources[i].file.path == a.path &&
                ExtractedFrom(sources[i].file) == Success(a.drums) &&
                Score(a.drums, sources[i].beats) == Success(a.ratio)
    {
      var i :| 0 <= i < |results| && results[i] == Some(a);
      assert Outcome(sources[i], threshold).Success?;
    }
  }

  /**
   * Processes every source in order, then keeps the results that are not
   * None. The counter ends at one more per source.
   */
  method App(sources: seq<DrumSource>, threshold: real, counter: Counter) returns (kept: seq<Accepted>)
    modifies counter
    ensures counter.value == old(counter.value) + |sources|
    ensures kept == Kept(Results(sources, threshold))
    ensures |kept| <= |sources|
    ensures forall a :: a in kept ==> threshold <= a.ratio <= 1.0 && |a.drums| == 1 && a.drums[0].isDrum
  {
    var results: seq<Option<Accepted>> := [];
    for i := 0 to |sources|
      invariant counter.value == old(counter.value) + i
      invariant results == Results(sources[..i], threshold)
    {
      var r := Process(sources[i], threshold, counter);
      results := results + [r];
    }
    assert sources[..|sources|] == sources;
    kept := Kept(results);
    KeptAboveThreshold(sources, threshold);
  }
}
