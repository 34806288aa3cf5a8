/**
 * The parts of a pretty_midi performance the drum scripts look at, and the
 * progress counter the worker processes share.
 */
module Midi {
  import opened Wrappers

  /** A note: its MIDI pitch and its start and end times, in integer ticks. */
  datatype Note = Note(pitch: int, start: int, end: int)

  /** An instrument track: its program number, its percussion flag and its notes, in order. */
  datatype Instrument = Instrument(program: int, isDrum: bool, notes: seq<Note>)

  /** The instruments of a performance, in the order the MIDI file lists them. */
  type Performance = seq<Instrument>

  /**
   * What the file system holds for one MIDI path: the performance that
   * `PrettyMIDI(path)` parses (None when parsing raises), and whether
   * writing the output file succeeds.
   */
  datatype MidiFile = MidiFile(path: string, parsed: Option<Performance>, writable: bool)

  /** The shared progress counter, as a sequential integer. */
  class Counter {
    var value: nat

    constructor ()
      ensures value == 0
    {
      value := 0;
    }

    method Increment()
      modifies this
      ensures value == old(value) + 1
    {
      value := value + 1;
    }
  }
}
