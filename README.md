# Drum-track preprocessing: a Dafny model

This project models the note-list logic of two batch MIDI preprocessing
scripts from a drum-generation research project.

- `Scripts/script_drums_extract.py` keeps the percussive instruments of each
  MIDI file and merges them into one drum track when there are several. It
  scores the track by the fraction of beats on which a kick drum (pitch 35
  or 36) starts. It accepts the file when that fraction reaches a threshold.
  The workers return None for rejected or failing files, and the app drops
  those results.
- `Scripts/script_change_pitch.py` rewrites the pitches of the first
  instrument of each file in place through a fixed drum-mapping chain
  (for instance 35 becomes 36, and several hand-percussion, tom and
  tambourine pitches become 42, the closed hi-hat). Its workers let errors
  escape. Both scripts bump a shared progress counter once per worker
  call, whether or not the call fails.

Files:

- `wrappers.dfy`: `Option` and `Result`, standing for `None` returns and
  raised exceptions.
- `midi.dfy`: notes `(pitch, start, end)`, instruments
  `(program, isDrum, notes)`, a performance as a sequence of instruments,
  a `MidiFile`, and the progress `Counter` class.
- `drums_extract.dfy`: module `DrumsExtract`. The drum filter and the
  concatenation of note lists are functions. The merge, the beat flags,
  the worker and the app are methods proved against those functions. The
  lemmas give the extraction and scoring properties.
- `change_pitch.dfy`: module `ChangePitch`. The pitch table is `MvPitch`.
  The chain of `if` tests, as the script runs it, is `ChainPitch`, which is
  proved equal to the table. The class `PrettyMidi` has the method that
  rewrites the first instrument note by note. The worker is `ProcessForMv`.

Modelling choices:

- Times are integer ticks. `math.isclose` becomes `Close`, which is
  equality. The script compares float seconds with a relative tolerance
  of 1e-9. Two different ticks lie at least one tick's duration apart in
  seconds, which is far more than 1e-9 of any realistic time. Equal ticks
  reach `isclose` as floats that differ at most by rounding.
- `PrettyMIDI(path)` is an input: `MidiFile.parsed` is `None` when parsing
  raises. Writing the output file is an input too: `MidiFile.writable`.
- `get_beats()` is computed by pretty_midi from the tempo changes, the time
  signatures and the end time of the drum-only performance. Each file's
  beat grid is therefore an input, `DrumSource.beats`.
- The extraction script deep-copies the parsed performance before changing
  it, so extraction works on values with no aliasing.
- The scoring ratio is a Dafny `real`. A file with no beats divides by zero,
  and the worker turns that into `None`, like every other exception.
- The docstring and return annotation of `change_pitch_for_mv` speak of a
  ratio of bass drums, but the code returns nothing. The model follows the
  code. The script also tests pitch 69 twice in its first condition, which
  changes nothing.
- The docstring of the extraction script's `process` says it raises an
  exception when the file cannot be processed, but the code catches every
  exception and returns None. The model follows the code.
- Some functions are the reference definitions that the rowed members are
  proved against, and have no row of their own. `ExtractedFrom` is
  `extract_drums` with loading. `ConcatNotes` is the merged note list.
  `Flags` is the list of on-beat flags. `AsOption` is the `except` branch
  that turns any error into None.

## Model

| member | source | states |
|---|---|---|
| `DrumsExtract.DrumsOnly` | Scripts/script_drums_extract.py:52-53 | the result holds only drum instruments, an instrument is in it iff it is a drum of the input, and it is no longer than the input |
| `DrumsExtract.DrumsOnlyAppend` | Scripts/script_drums_extract.py:52-53 | the filter distributes over concatenation, so the drums keep their original order |
| `DrumsExtract.DrumsOnlyAt` | Scripts/script_drums_extract.py:52-53 | when index k holds the only drum, the filter yields exactly that instrument |
| `DrumsExtract.ConcatNotesLength` | Scripts/script_drums_extract.py:56-59 | the pooled note list is as long as the sum of the instruments' note counts |
| `DrumsExtract.ConcatNotesMember` | Scripts/script_drums_extract.py:56-59 | a note is in the pooled list iff one of the pooled instruments holds it |
| `DrumsExtract.MergeDrums` | Scripts/script_drums_extract.py:56-59 | the nested append loop builds an instrument with program 0, the drum flag, and the in-order concatenation of all the drums' notes |
| `DrumsExtract.Extracted` | Scripts/script_drums_extract.py:52-63 | extraction fails, with 0 drums reported, iff no instrument is a drum; otherwise it yields exactly one instrument and that instrument is a drum |
| `DrumsExtract.ExtractedSingle` | Scripts/script_drums_extract.py:54-64 | a single drum instrument is returned unchanged, program and notes included |
| `DrumsExtract.ExtractedMerged` | Scripts/script_drums_extract.py:54-60 | with several drums, the result is one instrument with program 0, the drum flag and the concatenated notes, so its note count is the sum of theirs |
| `DrumsExtract.ExtractedNotesFromDrums` | Scripts/script_drums_extract.py:52-60 | every note of the extracted track belongs to a drum instrument of the input, so no non-drum instrument contributes notes |
| `DrumsExtract.ExtractDrums` | Scripts/script_drums_extract.py:39-64 | the method yields the parse error for an unreadable file and otherwise exactly the extraction above |
| `DrumsExtract.KickStarts` | Scripts/script_drums_extract.py:74-75 | a start time is listed iff some note with pitch 35 or 36 starts there |
| `DrumsExtract.NoKickStarts` | Scripts/script_drums_extract.py:74-75 | without a note of pitch 35 or 36 the list of kick starts is empty |
| `DrumsExtract.OnBeatFlags` | Scripts/script_drums_extract.py:76-83 | there is one flag per beat, and a flag is true iff some kick start is close to its beat; the early `break` does not change the flag |
| `DrumsExtract.CountTrue` | Scripts/script_drums_extract.py:84 | the number of true flags is at most the number of flags |
| `DrumsExtract.CountTrueNone` | Scripts/script_drums_extract.py:84 | the count is 0 iff every flag is false |
| `DrumsExtract.CountTrueAll` | Scripts/script_drums_extract.py:84 | the count equals the number of flags iff every flag is true |
| `DrumsExtract.Score` | Scripts/script_drums_extract.py:73-85 | scoring fails iff there is no instrument (IndexError) or no beat (division by zero); otherwise the ratio lies in [0, 1] |
| `DrumsExtract.ScoreWithoutKicks` | Scripts/script_drums_extract.py:74-85 | with beats but no kick note, the ratio is 0 |
| `DrumsExtract.ScoreOneIffEveryBeat` | Scripts/script_drums_extract.py:77-85 | the ratio is 1 iff a kick starts close to every beat |
| `DrumsExtract.ScoreZeroIffNoBeat` | Scripts/script_drums_extract.py:77-85 | the ratio is 0 iff no beat has a kick close to it |
| `DrumsExtract.GetBassDrumsOnBeat` | Scripts/script_drums_extract.py:67-85 | the method computes exactly the score: true flags divided by beats, or the error |
| `DrumsExtract.Outcome` | Scripts/script_drums_extract.py:101-111 | an accepted record holds the file's path, the drum track extraction produced for it and that track's score as its ratio, and the ratio is at least the threshold |
| `DrumsExtract.OutcomeAccepted` | Scripts/script_drums_extract.py:101-111 | a file is accepted iff it parses, has a drum instrument and a beat, its ratio reaches the threshold and its output can be written |
| `DrumsExtract.Process` | Scripts/script_drums_extract.py:88-116 | the worker returns the result iff the outcome is accepted and None otherwise, and the counter rises by exactly one on every path |
| `DrumsExtract.Kept` | Scripts/script_drums_extract.py:131 | the filter keeps exactly the values of the non-None results and never more results than it was given |
| `DrumsExtract.Results` | Scripts/script_drums_extract.py:130 | there is one worker result per input path |
| `DrumsExtract.KeptAboveThreshold` | Scripts/script_drums_extract.py:101-131 | every kept result is a single drum track with a ratio between the threshold and 1, and is the extracted track and score of one of the inputs, whose path it carries |
| `DrumsExtract.App` | Scripts/script_drums_extract.py:119-131 | the counter rises by the number of paths, and the kept results are the accepted outcomes in input order, at most one per path, each a single drum track with a ratio between the threshold and 1 |
| `Midi.Counter.constructor` | Scripts/script_drums_extract.py:128 | a new counter starts at 0 |
| `Midi.Counter.Increment` | Scripts/script_drums_extract.py:116 | an increment adds exactly one |
| `ChangePitch.MvPitch` | Scripts/script_change_pitch.py:58-68 | every pitch outside the source list is unchanged, every source pitch goes to 36, 38, 42 or 71, and no result is itself a source pitch |
| `ChangePitch.ChainPitch` | Scripts/script_change_pitch.py:59-68 | the five sequential `if` tests compute exactly the table, so the chain never cascades |
| `ChangePitch.MvPitchTargets` | Scripts/script_change_pitch.py:59-68 | 28, 62, 64, 69, 73, 81, 82 and 83 go to 42; 35 to 36; 39 to 38; 41 and 54 to 42; 70 to 71 |
| `ChangePitch.RemapNotes` | Scripts/script_change_pitch.py:58-68 | the notes keep their number, order and start and end times, and each pitch becomes its table image |
| `ChangePitch.Remapped` | Scripts/script_change_pitch.py:58 | only the first instrument changes; its program, drum flag and note count stay, and the other instruments are untouched |
| `ChangePitch.RemappedNoSourcePitch` | Scripts/script_change_pitch.py:59-68 | after the change, no note of the first instrument has a remapped source pitch |
| `ChangePitch.RemapNotesIdempotent` | Scripts/script_change_pitch.py:58-68 | remapping a note list twice equals remapping it once |
| `ChangePitch.RemappedIdempotent` | Scripts/script_change_pitch.py:58-68 | applying the change twice equals applying it once |
| `ChangePitch.PrettyMidi.constructor` | Scripts/script_change_pitch.py:47 | the object holds the parsed instruments |
| `ChangePitch.PrettyMidi.ChangePitchForMv` | Scripts/script_change_pitch.py:51-68 | the in-place loop fails, with nothing changed, iff there is no instrument; otherwise it leaves exactly the remapped performance |
| `ChangePitch.MvOutcome` | Scripts/script_change_pitch.py:84-90 | a file succeeds iff it parses, has an instrument and can be written, and then yields its path and the remapped performance |
| `ChangePitch.ProcessForMv` | Scripts/script_change_pitch.py:71-92 | the worker returns the outcome, its error included, uncaught, and the counter rises by exactly one whether or not an error occurs |

## Left out

- MIDI parsing and writing, `os.makedirs` and `shutil.rmtree`: file I/O through a third-party library. The outcome of parsing and whether writing succeeds are inputs of each file.
- `get_beats()`: a pretty_midi computation from the tempo changes, the time signatures and the end time. The beat grid is an input of each file.
- Floating-point times and `math.isclose`: times are integer ticks, and closeness is their equality.
- Note velocity and the rest of a PrettyMIDI object (tempo changes, key and time signatures, lyrics): the scripts copy them unchanged, and the model keeps only pitch, start and end of notes and the instrument list.
- The other attributes of instruments (name, pitch bends, control changes): a lone drum instrument keeps them, while merging several builds a fresh instrument that has none of them. The model keeps only program, drum flag and notes, so it does not show this loss.
- Aliasing of note objects: the merged instrument shares note objects with the copied instruments, and the pitch change mutates note objects. The model rewrites note values inside the instrument's note sequence. In a freshly parsed file no two notes are the same object, so the result is the same.
- The worker pool, `Manager` and `starmap`: the model runs the workers one after another in input order, which is the order `starmap` returns results in. The counter is a plain integer.
- `AtomicCounter`'s milestone logging: `multiprocessing_utils` is not part of this model.
- Printing, the "Not on beat" message filter, the timings, the histograms, `argparse` and `random.sample`: presentation, command line and randomness.
- The result percentage in `app`, which divides by the number of paths: it is printed, and for an empty list of paths it raises ZeroDivisionError right after the filter, so `app` fails before plotting. The model's `App` returns the empty list instead.
- The `app` of the pitch-change script: orchestration of the same kind. Its `starmap` re-raises the first worker error once all tasks have finished. `starmap` runs a chunk of paths as one task, so an error also skips the rest of its chunk: those files are never processed and never counted.
- `Scripts/mv_config.py` and `Scripts/plot_convergence.py` are not part of this model: they hold model configuration data and a plotting script.
- Pitches are unbounded integers: the model does not enforce the MIDI range 0 to 127, which neither script checks.
