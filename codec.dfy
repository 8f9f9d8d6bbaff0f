/**
 * The MIDI message codec: the four-byte channel-voice messages the tool
 * writes, their copy to and from the driver's message struct, and the
 * record a received message is described by.
 */
module Codec {
  import opened Native
  import opened Wrappers

  /** The tool's own message (`MidiMessage`). */
  datatype MidiMessage = MidiMessage(status: u8, data1: u8, data2: u8, data3: u8)

  /** The driver's message struct (`portmidi::MidiMessage`). */
  datatype DriverMessage = DriverMessage(status: u8, data1: u8, data2: u8, data3: u8)

  /** The kind reported for a received message (`MidiMessageType`). */
  datatype MessageType = NoteOn | NoteOff | Todo

  /** The record serialised for a received message (`MidiMessageJson`); `kind` is its "type" key. */
  datatype MessageRecord = MessageRecord(kind: MessageType, channel: u8, note: u8, velocity: u8)

  /** Velocity used when a note-on is sent without one. */
  const DefaultVelocity: u8 := 100

  /** The upper four bits of a status byte: the message kind in MIDI 1.0. */
  function HighNibble(b: u8): int { b as int / 16 }

  /** The lower four bits of a status byte: the channel in MIDI 1.0. */
  function LowNibble(b: u8): int { b as int % 16 }

  /** A Note On on `channel`; `0x90 + channel` must not overflow a byte. */
  function NoteOnMessage(channel: u8, note: u8, velocity: Option<u8>): (m: MidiMessage)
    requires channel < 0x70
    ensures m.status as int == 0x90 + channel as int
    ensures channel < 16 ==> HighNibble(m.status) == 9 && LowNibble(m.status) == channel as int
    ensures m.data1 == note && m.data3 == 0
    ensures velocity.Some? ==> m.data2 == velocity.value
    ensures velocity.None? ==> m.data2 == 100
  {
    MidiMessage(0x90 + channel, note, velocity.UnwrapOr(DefaultVelocity), 0)
  }

  /** A Note Off on `channel`, always with velocity 0; `0x80 + channel` must not overflow a byte. */
  function NoteOffMessage(channel: u8, note: u8): (m: MidiMessage)
    requires channel < 0x80
    ensures m.status as int == 0x80 + channel as int
    ensures channel < 16 ==> HighNibble(m.status) == 8 && LowNibble(m.status) == channel as int
    ensures m.data1 == note && m.data2 == 0 && m.data3 == 0
  {
    MidiMessage(0x80 + channel, note, 0, 0)
  }

  /** Copy a message into the driver's struct. */
  function ToPortmidi(m: MidiMessage): (p: DriverMessage)
    ensures p.status == m.status && p.data1 == m.data1 && p.data2 == m.data2 && p.data3 == m.data3
  {
    DriverMessage(m.status, m.data1, m.data2, m.data3)
  }

  /** Copy a message out of the driver's struct. */
  function FromPortmidi(p: DriverMessage): (m: MidiMessage)
    ensures m.status == p.status && m.data1 == p.data1 && m.data2 == p.data2 && m.data3 == p.data3
  {
    MidiMessage(p.status, p.data1, p.data2, p.data3)
  }

  /** Every field is copied unchanged, so the two copies are inverse to each other. */
  lemma PortmidiRoundTrip(m: MidiMessage, p: DriverMessage)
    ensures FromPortmidi(ToPortmidi(m)) == m
    ensures ToPortmidi(FromPortmidi(p)) == p
    ensures ToPortmidi(m) == p <==> FromPortmidi(p) == m
  {
  }

  /** Rust's `a & b` on unsigned integers, one bit at a time from the lowest. */
  function BitAnd(a: nat, b: nat): (r: nat)
    ensures r <= a && r <= b
    decreases a
  {
    if a == 0 || b == 0 then 0
    else 2 * BitAnd(a / 2, b / 2) + (if a % 2 == 1 && b % 2 == 1 then 1 else 0)
  }

  /** Rust's `a >> n` on unsigned integers. */
  function ShiftRight(a: nat, n: nat): (r: nat)
    ensures r <= a
  {
    if n == 0 then a else ShiftRight(a / 2, n - 1)
  }

  /** Masking with `0x0f` keeps the low four bits. */
  lemma {:induction false} AndLowMask(a: nat)
    ensures BitAnd(a, 0x0f) == a % 16
  {
    AndOddMask(a, 7);
    AndThreeBits(a / 2);
    var u, w := a / 2 / 8, 2 * (a / 2 % 8) + a % 2;
    assert a == 16 * u + w && a == 16 * (a / 16) + a % 16;
    assert 16 * (u - a / 16) == a % 16 - w;
  }

  /** Masking with `0x07` keeps the low three bits. */
  lemma {:induction false} AndThreeBits(a: nat)
    ensures BitAnd(a, 0x07) == a % 8
  {
    AndOddMask(a, 3);
    AndTwoBits(a / 2);
    var u, w := a / 2 / 4, 2 * (a / 2 % 4) + a % 2;
    assert a == 8 * u + w && a == 8 * (a / 8) + a % 8;
    assert 8 * (u - a / 8) == a % 8 - w;
  }

  /** Masking with `0x03` keeps the low two bits. */
  lemma {:induction false} AndTwoBits(a: nat)
    ensures BitAnd(a, 0x03) == a % 4
  {
    AndOddMask(a, 1);
    AndOddMask(a / 2, 0);
    var u, w := a / 2 / 2, 2 * (a / 2 % 2) + a % 2;
    assert a == 4 * u + w && a == 4 * (a / 4) + a % 4;
    assert 4 * (u - a / 4) == a % 4 - w;
  }

  /** Masking with an odd mask keeps the lowest bit and masks the rest with the mask's upper bits. */
  lemma AndOddMask(a: nat, b: nat)
    ensures BitAnd(a, 2 * b + 1) == 2 * BitAnd(a / 2, b) + a % 2
  {
    if a == 0 {
      assert BitAnd(a / 2, b) == 0;
    }
  }

  /** Shifting right by 4 divides by 16. */
  lemma {:induction false} ShiftRightFour(y: nat)
    ensures ShiftRight(y, 4) == y / 16
  {
    assert ShiftRight(y, 4) == ShiftRight(y / 2, 3) == ShiftRight(y / 2 / 2, 2)
        == ShiftRight(y / 2 / 2 / 2, 1) == y / 2 / 2 / 2 / 2;
  }

  /** Masking with `0xf0` keeps the high nibble in place. */
  lemma {:induction false} AndHighMask(x: nat)
    ensures BitAnd(x, 0xf0) == 16 * BitAnd(x / 16, 0x0f)
  {
    var x1, x2, x3 := x / 2, x / 4, x / 8;
    assert x1 / 2 == x2 && x2 / 2 == x3 && x3 / 2 == x / 16;
    assert BitAnd(x, 0xf0) == 2 * BitAnd(x1, 0x78);
    assert BitAnd(x1, 0x78) == 2 * BitAnd(x2, 0x3c);
    assert BitAnd(x2, 0x3c) == 2 * BitAnd(x3, 0x1e);
    assert BitAnd(x3, 0x1e) == 2 * BitAnd(x / 16, 0x0f);
  }

  /** Masking a byte with `0xf0` and shifting by 4 gives its high nibble. */
  lemma {:induction false} AndHighMaskShift(a: u8)
    ensures ShiftRight(BitAnd(a as nat, 0xf0), 4) == a as int / 16
  {
    var x := a as nat;
    AndHighMask(x);
    AndLowMask(x / 16);
    ShiftRightFour(BitAnd(x, 0xf0));
  }

  /**
   * The value of `self.status & 0xf0 >> 4`. Rust's `>>` binds tighter than
   * `&`, so this is `status & (0xf0 >> 4)`, that is `status & 0x0f`: the
   * low nibble, not the high one.
   */
  function TypeSelector(status: u8): (t: u8)
    ensures t as int == LowNibble(status)
  {
    assert ShiftRight(0xf0, 4) == 0x0f;
    AndLowMask(status as nat);
    BitAnd(status as nat, ShiftRight(0xf0, 4)) as u8
  }

  /** The value of `self.status & 0xf`. */
  function StatusChannel(status: u8): (c: u8)
    ensures c as int == LowNibble(status)
  {
    AndLowMask(status as nat);
    BitAnd(status as nat, 0x0f) as u8
  }

  /** The record a received message is described by, as the source computes it. */
  function JsonRecord(m: MidiMessage): (r: MessageRecord)
    ensures r.channel as int == LowNibble(m.status)
    ensures r.note == m.data1 && r.velocity == m.data2
    ensures r.kind == NoteOff <==> LowNibble(m.status) == 8
    ensures r.kind == NoteOn <==> LowNibble(m.status) == 9
    ensures r.kind == Todo <==> LowNibble(m.status) != 8 && LowNibble(m.status) != 9
  {
    var kind :=
      match TypeSelector(m.status)
      case 8 => NoteOff
      case 9 => NoteOn
      case _ => Todo;
    MessageRecord(kind, StatusChannel(m.status), m.data1, m.data2)
  }

  /** Decoding a Note On the tool sent reports its channel, note and velocity; its kind follows the channel. */
  lemma DecodeNoteOn(channel: u8, note: u8, velocity: Option<u8>)
    requires channel < 16
    ensures var r := JsonRecord(NoteOnMessage(channel, note, velocity));
      && r.channel == channel && r.note == note
      && r.velocity == velocity.UnwrapOr(DefaultVelocity)
      && r.kind == (if channel == 8 then NoteOff else if channel == 9 then NoteOn else Todo)
  {
  }

  /** Decoding a Note Off the tool sent reports its channel, note and velocity 0; its kind follows the channel. */
  lemma DecodeNoteOff(channel: u8, note: u8)
    requires channel < 16
    ensures var r := JsonRecord(NoteOffMessage(channel, note));
      && r.channel == channel && r.note == note && r.velocity == 0
      && r.kind == (if channel == 8 then NoteOff else if channel == 9 then NoteOn else Todo)
  {
  }

  /** A Note On on channel 0, high nibble 9, is reported as neither note-on nor note-off. */
  lemma NoteOnChannelZeroIsTodo(note: u8, velocity: Option<u8>)
    ensures HighNibble(NoteOnMessage(0, note, velocity).status) == 9
    ensures JsonRecord(NoteOnMessage(0, note, velocity)).kind == Todo
  {
  }

  /** A Note On on channel 8 is reported as a note-off. */
  lemma NoteOnChannelEightIsNoteOff(note: u8, velocity: Option<u8>)
    ensures HighNibble(NoteOnMessage(8, note, velocity).status) == 9
    ensures JsonRecord(NoteOnMessage(8, note, velocity)).kind == NoteOff
  {
  }

  /** The kind selector the code evidently intends: `(status & 0xf0) >> 4`, the high nibble. */
  function IntendedTypeSelector(status: u8): (t: u8)
    ensures t as int == HighNibble(status)
  {
    AndHighMaskShift(status);
    ShiftRight(BitAnd(status as nat, 0xf0), 4) as u8
  }

  /** The record with the kind taken from the high nibble, as MIDI 1.0 lays out a status byte. */
  function JsonRecordIntended(m: MidiMessage): (r: MessageRecord)
    ensures r.channel as int == LowNibble(m.status)
    ensures r.note == m.data1 && r.velocity == m.data2
    ensures r.kind == NoteOff <==> HighNibble(m.status) == 8
    ensures r.kind == NoteOn <==> HighNibble(m.status) == 9
    ensures r.kind == Todo <==> HighNibble(m.status) != 8 && HighNibble(m.status) != 9
  {
    var kind :=
      match IntendedTypeSelector(m.status)
      case 8 => NoteOff
      case 9 => NoteOn
      case _ => Todo;
    MessageRecord(kind, StatusChannel(m.status), m.data1, m.data2)
  }

  /** With the intended selector a Note On the tool sent is reported as a note-on on its channel. */
  lemma IntendedDecodeNoteOn(channel: u8, note: u8, velocity: Option<u8>)
    requires channel < 16
    ensures JsonRecordIntended(NoteOnMessage(channel, note, velocity))
         == MessageRecord(NoteOn, channel, note, velocity.UnwrapOr(DefaultVelocity))
  {
  }

  /** With the intended selector a Note Off the tool sent is reported as a note-off on its channel. */
  lemma IntendedDecodeNoteOff(channel: u8, note: u8)
    requires channel < 16
    ensures JsonRecordIntended(NoteOffMessage(channel, note)) == MessageRecord(NoteOff, channel, note, 0)
  {
  }

  /** Beyond channel 15 the status leaves the Note Off range: a Note Off on channel 16 decodes as a Note On on channel 0. */
  lemma NoteOffChannelSixteenIsNoteOn(note: u8)
    ensures NoteOffMessage(16, note).status == 0x90
    ensures JsonRecordIntended(NoteOffMessage(16, note)) == MessageRecord(NoteOn, 0, note, 0)
  {
  }

  /**
   * Conversely, a received message whose intended record is a note-on (its
   * fourth byte 0) is exactly the Note On the tool would build from that record.
   */
  lemma IntendedNoteOnReencodes(m: MidiMessage)
    requires JsonRecordIntended(m).kind == NoteOn && m.data3 == 0
    ensures var r := JsonRecordIntended(m);
      r.channel < 0x70 && NoteOnMessage(r.channel, r.note, Some(r.velocity)) == m
  {
  }

  /** A received note-off with both trailing bytes 0 is exactly the Note Off the tool would build. */
  lemma IntendedNoteOffReencodes(m: MidiMessage)
    requires JsonRecordIntended(m).kind == NoteOff && m.data2 == 0 && m.data3 == 0
    ensures var r := JsonRecordIntended(m);
      r.channel < 0x80 && NoteOffMessage(r.channel, r.note) == m
  {
  }
}
