/**
 * The send commands: each one resolves the channel from the command's
 * options and writes a fixed list of messages to an output port.
 */
module Commands {
  import opened Native
  import opened Wrappers
  import Codec

  /** `MessageOptions`: the device and channel given on the command line, if any. */
  datatype MessageOptions = MessageOptions(device: Option<i32>, channel: Option<u8>)

  /** The channel a command sends on: the one given, else channel 0. */
  function ChannelOf(options: MessageOptions): (ch: u8)
    ensures options.channel.None? ==> ch == 0
    ensures options.channel.Some? ==> ch == options.channel.value
  {
    options.channel.UnwrapOr(0)
  }

  /** An opened output port; `written` is every message handed to the driver, oldest first. */
  class OutputPort {
    var written: seq<Codec.DriverMessage>

    constructor ()
      ensures written == []
    {
      written := [];
    }

    /** `write_message`. */
    method WriteMessage(m: Codec.DriverMessage)
      modifies this
      ensures written == old(written) + [m]
    {
      written := written + [m];
    }
  }

  /** What `note_on` writes. */
  function NoteOnWrites(note: u8, velocity: Option<u8>, options: MessageOptions): seq<Codec.DriverMessage>
    requires ChannelOf(options) < 0x70
  {
    [Codec.ToPortmidi(Codec.NoteOnMessage(ChannelOf(options), note, velocity))]
  }

  /** What `note_off` writes. */
  function NoteOffWrites(note: u8, options: MessageOptions): seq<Codec.DriverMessage>
    requires ChannelOf(options) < 0x80
  {
    [Codec.ToPortmidi(Codec.NoteOffMessage(ChannelOf(options), note))]
  }

  /** What `trig` writes: its note-on, then its note-off. */
  function TrigWrites(note: u8, velocity: Option<u8>, options: MessageOptions): seq<Codec.DriverMessage>
    requires ChannelOf(options) < 0x70
  {
    NoteOnWrites(note, velocity, options) + NoteOffWrites(note, options)
  }

  /** `Mutil::note_on` on the port opened for the chosen device. */
  method NoteOn(port: OutputPort, note: u8, velocity: Option<u8>, options: MessageOptions)
    requires ChannelOf(options) < 0x70
    modifies port
    ensures port.written == old(port.written) + NoteOnWrites(note, velocity, options)
  {
    var channel := ChannelOf(options);
    port.WriteMessage(Codec.ToPortmidi(Codec.NoteOnMessage(channel, note, velocity)));
  }

  /** `Mutil::note_off` on the port opened for the chosen device. */
  method NoteOff(port: OutputPort, note: u8, options: MessageOptions)
    requires ChannelOf(options) < 0x80
    modifies port
    ensures port.written == old(port.written) + NoteOffWrites(note, options)
  {
    var channel := ChannelOf(options);
    port.WriteMessage(Codec.ToPortmidi(Codec.NoteOffMessage(channel, note)));
  }

  /** `Mutil::trig` on the port opened for the chosen device; the 40 ms hold between the writes is not modelled. */
  method Trig(port: OutputPort, note: u8, velocity: Option<u8>, options: MessageOptions)
    requires ChannelOf(options) < 0x70
    modifies port
    ensures port.written == old(port.written) + TrigWrites(note, velocity, options)
  {
    var channel := ChannelOf(options);
    port.WriteMessage(Codec.ToPortmidi(Codec.NoteOnMessage(channel, note, velocity)));
    port.WriteMessage(Codec.ToPortmidi(Codec.NoteOffMessage(channel, note)));
  }

  /**
   * `note_on` writes one message: status `0x90` plus the channel, the note,
   * the velocity (100 when none is given) and a zero last byte.
   */
  lemma NoteOnWritesOne(note: u8, velocity: Option<u8>, options: MessageOptions)
    requires ChannelOf(options) < 0x70
    ensures var w := NoteOnWrites(note, velocity, options);
      && |w| == 1
      && w[0].status as int == 0x90 + ChannelOf(options) as int
      && w[0].data1 == note
      && w[0].data2 == velocity.UnwrapOr(100)
      && w[0].data3 == 0
  {
  }

  /** `note_off` writes one message: status `0x80` plus the channel, the note and two zero bytes. */
  lemma NoteOffWritesOne(note: u8, options: MessageOptions)
    requires ChannelOf(options) < 0x80
    ensures var w := NoteOffWrites(note, options);
      && |w| == 1
      && w[0].status as int == 0x80 + ChannelOf(options) as int
      && w[0].data1 == note && w[0].data2 == 0 && w[0].data3 == 0
  {
  }

  /**
   * `trig` writes exactly two messages, a Note On and then a Note Off of the
   * same note on the same channel; read back from the driver they are the
   * codec's messages, and the channel is 0 when the options give none.
   */
  lemma TrigWritesOnThenOff(note: u8, velocity: Option<u8>, options: MessageOptions)
    requires ChannelOf(options) < 0x70
    ensures var w := TrigWrites(note, velocity, options);
      && |w| == 2
      && Codec.FromPortmidi(w[0]) == Codec.NoteOnMessage(ChannelOf(options), note, velocity)
      && Codec.FromPortmidi(w[1]) == Codec.NoteOffMessage(ChannelOf(options), note)
      && w[0].status as int - w[1].status as int == 0x10
      && w[0].data1 == w[1].data1 == note
      && (options.channel.None? ==> w[0].status == 0x90 && w[1].status == 0x80)
  {
  }
}
