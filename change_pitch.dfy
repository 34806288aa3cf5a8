/**
 * The drum pitch remapping applied to the first instrument of every file
 * before it is handed to the MusicVAE drum model, and the worker that
 * applies it.
 */
module ChangePitch {
  import opened Wrappers
  import opened Midi

  /** The exceptions a worker lets escape. */
  datatype Error =
    | ParseFailed   // PrettyMIDI(path) raised
    | NoInstrument  // instruments[0] raised IndexError
    | WriteFailed   // writing the output file raised

  // ---------------------------------------------------------------------------
  // The pitch table
  // ---------------------------------------------------------------------------

  /** The pitches the first test of the chain sends to 42. */
  predicate IsFirstGroup(p: int)
  {
    p == 28 || p == 64 || p == 73 || p == 69 || p == 62 || p == 83 || p == 82 || p == 81
  }

  /** Every pitch the remapping changes. */
  predicate IsSourcePitch(p: int)
  {
    IsFirstGroup(p) || p == 35 || p == 39 || p == 41 || p == 54 || p == 70
  }

  /** The remapping as a table: one entry per source pitch, identity elsewhere. */
  function MvPitch(p: int): (q: int)
    ensures !IsSourcePitch(p) ==> q == p
    ensures IsSourcePitch(p) ==> q in {36, 38, 42, 71}
    ensures !IsSourcePitch(q)
  {
    match p
    case 28 => 42
    case 62 => 42
    case 64 => 42
    case 69 => 42
    case 73 => 42
    case 81 => 42
    case 82 => 42
    case 83 => 42
    case 35 => 36
    case 39 => 38
    case 41 => 42
    case 54 => 42
    case 70 => 71
    case _ => p
  }

  /**
   * The chain of five independent `if` statements as the script runs them,
   * each one testing the pitch the previous ones left. No target is tested
   * by a later step, so the chain never cascades and equals the table.
   */
  function ChainPitch(p: int): (q: int)
    ensures q == MvPitch(p)
  {
    var p1 := if IsFirstGroup(p) then 42 else p;
    var p2 := if p1 == 35 then 36 else p1;
    var p3 := if p2 == 39 then 38 else p2;
    var p4 := if p3 == 41 || p3 == 54 then 42 else p3;
    if p4 == 70 then 71 else p4
  }

  /** Each source pitch goes to its named target. */
  lemma MvPitchTargets(p: int)
    ensures IsFirstGroup(p) ==> MvPitch(p) == 42
    ensures p == 35 ==> MvPitch(p) == 36
    ensures p == 39 ==> MvPitch(p) == 38
    ensures p == 41 || p == 54 ==> MvPitch(p) == 42
    ensures p == 70 ==> MvPitch(p) == 71
  {
  }

  // ---------------------------------------------------------------------------
  // Notes and instruments
  // ---------------------------------------------------------------------------

  /** The notes with their pitches remapped, one by one and in order. */
  function RemapNotes(notes: seq<Note>): (r: seq<Note>)
    ensures |r| == |notes|
    ensures forall i :: 0 <= i < |notes| ==>
              r[i].pitch == MvPitch(notes[i].pitch) &&
              r[i].start == notes[i].start && r[i].end == notes[i].end
  {
    if notes == [] then []
    else [notes[0].(pitch := ChainPitch(notes[0].pitch))] + RemapNotes(notes[1..])
  }

  /** The performance with the first instrument's notes remapped; the other instruments as they were. */
  function Remapped(insts: Performance): (r: Performance)
    requires |insts| > 0
    ensures |r| == |insts| && r[1..] == insts[1..]
    ensures r[0].program == insts[0].program && r[0].isDrum == insts[0].isDrum
    ensures |r[0].notes| == |insts[0].notes|
  {
    insts[0 := insts[0].(notes := RemapNotes(insts[0].notes))]
  }

  /** After remapping, no note of the first instrument has a source pitch. */
  lemma RemappedNoSourcePitch(insts: Performance, n: Note)
    requires |insts| > 0
    requires n in Remapped(insts)[0].notes
    ensures !IsSourcePitch(n.pitch)
  {
    var notes := Remapped(insts)[0].notes;
    var i :| 0 <= i < |notes| && notes[i] == n;
    assert n.pitch == MvPitch(insts[0].notes[i].pitch);
  }

  /** Remapping notes twice is remapping them once. */
  lemma {:induction false} RemapNotesIdempotent(notes: seq<Note>)
    ensures RemapNotes(RemapNotes(notes)) == RemapNotes(notes)
  {
    var once := RemapNotes(notes);
    var twice := RemapNotes(once);
    assert |twice| == |once|;
    forall i | 0 <= i < |once|
      ensures twice[i] == once[i]
    {
      assert twice[i].pitch == MvPitch(MvPitch(notes[i].pitch));
    }
  }

  /** Applying the change twice is applying it once. */
  lemma RemappedIdempotent(insts: Performance)
    requires |insts| > 0
    ensures Remapped(Remapped(insts)) == Remapped(insts)
  {
    RemapNotesIdempotent(insts[0].notes);
  }

  // ---------------------------------------------------------------------------
  // The performance object the script mutates
  // ---------------------------------------------------------------------------

  /** A loaded performance whose instrument list is rewritten in place. */
  class PrettyMidi {
    var instruments: Performance

    constructor (insts: Performance)
      ensures instruments == insts
    {
      instruments := insts;
    }

    /**
     * Rewrites, note by note, the pitch of every note of the first
     * instrument through the chain of tests. Returns false, changing
     * nothing, when there is no first instrument.
     */
    method ChangePitchForMv() returns (ok: bool)
      modifies this
      ensures ok <==> |old(instruments)| > 0
      ensures ok ==> instruments == Remapped(old(instruments))
      ensures !ok ==> instruments == old(instruments)
    {
      if |instruments| == 0 {
        return false;
      }
      ghost var before := instruments;
      var i := 0;
      while i < |instruments[0].notes|
        invariant |instruments| == |before| && instruments[1..] == before[1..]
        invariant instruments[0].program == before[0].program
        invariant instruments[0].isDrum == before[0].isDrum
        invariant |instruments[0].notes| == |before[0].notes|
        invariant 0 <= i <= |before[0].notes|
        invariant forall k :: 0 <= k < i ==>
                    instruments[0].notes[k] == RemapNotes(before[0].notes)[k]
        invariant forall k :: i <= k < |before[0].notes| ==>
                    instruments[0].notes[k] == before[0].notes[k]
      {
        var note := instruments[0].notes[i];
        var pitch := note.pitch;
        if IsFirstGroup(pitch) {
          pitch := 42;
        }
        if pitch == 35 {
          pitch := 36;
        }
        if pitch == 39 {
          pitch := 38;
        }
        if pitch == 41 || pitch == 54 {
          pitch := 42;
        }
        if pitch == 70 {
          pitch := 71;
        }
        var first := instruments[0];
        instruments := instruments[0 := first.(notes := first.notes[i := note.(pitch := pitch)])];
        i := i + 1;
      }
      assert instruments[0].notes == RemapNotes(before[0].notes);
      assert instruments[0] == Remapped(before)[0];
      assert instruments == [instruments[0]] + instruments[1..];
      assert Remapped(before) == [Remapped(before)[0]] + Remapped(before)[1..];
      return true;
    }
  }

  // ---------------------------------------------------------------------------
  // One worker
  // ---------------------------------------------------------------------------

  /** The dictionary a worker returns. */
  datatype Changed = Changed(path: string, drums: Performance)

  /** The outcome of processing one file: the remapped performance, or the error that escapes. */
  function MvOutcome(file: MidiFile): (r: Result<Changed, Error>)
    ensures r.Success? <==> file.parsed.Some? && |file.parsed.value| > 0 && file.writable
    ensures r.Success? ==> r.value.path == file.path && r.value.drums == Remapped(file.parsed.value)
  {
    if file.parsed.None? then Failure(ParseFailed)
    else if |file.parsed.value| == 0 then Failure(NoInstrument)
    else if !file.writable then Failure(WriteFailed)
    else Success(Changed(file.path, Remapped(file.parsed.value)))
  }

  /**
   * Loads the file, remaps its first instrument and writes it. Errors are
   * not caught; the counter goes up by one whether or not one occurs.
   */
  method ProcessForMv(file: MidiFile, counter: Counter) returns (r: Result<Changed, Error>)
    modifies counter
    ensures counter.value == old(counter.value) + 1
    ensures r == MvOutcome(file)
  {
    if file.parsed.None? {
      r := Failure(ParseFailed);
    } else {
      var pm := new PrettyMidi(file.parsed.value);
      var ok := pm.ChangePitchForMv();
      if !ok {
        r := Failure(NoInstrument);
      } else if !file.writable {
        r := Failure(WriteFailed);
      } else {
        r := Success(Changed(file.path, pm.instruments));
      }
    }
    counter.Increment();
  }
}
