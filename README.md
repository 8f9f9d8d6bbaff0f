# mutil — MIDI message codec and device filter

A Dafny model of the logic in `mutil`, a small command-line tool that lists
MIDI devices, sends Note On / Note Off / trigger messages to an output
device and streams incoming messages as text. The model covers the part
of `src/mutil.rs` that is more than a call into the portmidi driver:

- the four-byte channel-voice messages the tool builds (`MidiMessage::note_on`,
  `MidiMessage::note_off`), with Note On status `0x90 + channel` and Note Off
  status `0x80 + channel`, which for channels 0 to 15 is the layout
  `0x90 | channel` / `0x80 | channel` of the MIDI 1.0 Detailed Specification
  (Channel Voice Messages);
- the field-by-field copy to and from the driver's message struct
  (`to_portmidi`, `from_portmidi`);
- the record a received message is described by (`json`, which fills a
  `MidiMessageJson` of type, channel, note and velocity); the model builds
  the record, not its JSON text;
- the device direction mapping (`Device::new`) and the device listing with
  its optional direction filter (`Mutil::devices`);
- the messages `note_on`, `note_off` and `trig` write to the output port;
- the forwarding of one batch of polled input events by `stream`.

Modules: `Native` (`u8`, `u32`, `i32`), `Wrappers` (`Option` with `unwrap_or`),
`Codec`, `Devices`, `Commands` (the output port as a class whose `written`
field is the sequence of messages handed to the driver) and `Stream` (the
channel's sending end as a class whose `sent` field is the sequence of
messages sent).

Rust's `&` and `>>` on bytes are modelled by `Codec.BitAnd` and
`Codec.ShiftRight`, defined bit by bit, and the masks the source uses are
proved to select the low nibble (`b % 16`) and the high nibble (`b / 16`).
The expression `self.status & 0xf0 >> 4` is modelled as Rust parses it:
`>>` binds tighter than `&`, so it is `status & (0xf0 >> 4)`, which is
`status & 0x0f`. `Codec.JsonRecord` therefore decides the type on the low
nibble, the same value as the channel (see "## Findings").

## Model

| member | source | states |
|---|---|---|
| Codec.NoteOnMessage | src/mutil.rs:65-72 | status is `0x90 + channel`, so for a channel below 16 the high nibble is 9 and the low nibble is the channel; data1 is the note, data2 the velocity or 100 when none is given, data3 is 0; the channel must keep `0x90 + channel` within a byte |
| Codec.NoteOffMessage | src/mutil.rs:74-81 | status is `0x80 + channel`, so for a channel below 16 the high nibble is 8 and the low nibble is the channel; data1 is the note, data2 and data3 are 0; the channel must keep `0x80 + channel` within a byte |
| Codec.ToPortmidi | src/mutil.rs:83-90 | the driver's struct gets the message's status, data1, data2 and data3 unchanged |
| Codec.FromPortmidi | src/mutil.rs:92-99 | the message gets the driver struct's status, data1, data2 and data3 unchanged |
| Codec.PortmidiRoundTrip | src/mutil.rs:83-99 | copying a message to the driver's struct and back gives the same message, and the other way round; the two copies are inverse to each other |
| Codec.BitAnd | src/mutil.rs:102-103 | bitwise and of two unsigned integers is no larger than either operand, so masking a byte stays a byte |
| Codec.ShiftRight | src/mutil.rs:102 | Rust's `>>` on unsigned integers never increases the value; its value at a shift of 4 is pinned down by `Codec.ShiftRightFour` (division by 16) and used by `Codec.AndHighMaskShift` |
| Codec.ShiftRightFour | src/mutil.rs:102 | shifting right by 4 divides by 16 |
| Codec.AndLowMask | src/mutil.rs:103 | masking with `0x0f` gives the value modulo 16, the low nibble |
| Codec.AndHighMaskShift | src/mutil.rs:102 | masking a byte with `0xf0` and shifting right by 4 gives the byte divided by 16, the high nibble |
| Codec.TypeSelector | src/mutil.rs:102 | `status & 0xf0 >> 4`, parsed as Rust parses it, equals the low nibble of the status |
| Codec.StatusChannel | src/mutil.rs:103 | `status & 0xf` equals the low nibble of the status |
| Codec.JsonRecord | src/mutil.rs:101-116 | the record's channel is the low nibble of the status, note is data1, velocity is data2; type is NoteOff iff the low nibble is 8, NoteOn iff it is 9, Todo otherwise |
| Codec.DecodeNoteOn | src/mutil.rs:65-116 | decoding a Note On built for a channel below 16 reports that channel, its note and its velocity (100 when none was given); its type is NoteOff for channel 8, NoteOn for channel 9, Todo otherwise |
| Codec.DecodeNoteOff | src/mutil.rs:74-116 | decoding a Note Off built for a channel below 16 reports that channel, its note and velocity 0; its type depends on the channel in the same way |
| Codec.NoteOnChannelZeroIsTodo | src/mutil.rs:102-109 | a Note On on channel 0 has high nibble 9 but is reported with type Todo |
| Codec.NoteOnChannelEightIsNoteOff | src/mutil.rs:102-109 | a Note On on channel 8 has high nibble 9 but is reported with type NoteOff |
| Codec.IntendedTypeSelector | src/mutil.rs:102 | `(status & 0xf0) >> 4` equals the high nibble of the status |
| Codec.JsonRecordIntended | src/mutil.rs:101-116 | with the type taken from the high nibble: channel, note and velocity as in the record; type is NoteOff iff the high nibble is 8, NoteOn iff it is 9, Todo otherwise |
| Codec.IntendedDecodeNoteOn | src/mutil.rs:65-116 | with the intended selector a Note On built for a channel below 16 decodes to exactly (NoteOn, channel, note, velocity or 100) |
| Codec.IntendedDecodeNoteOff | src/mutil.rs:74-116 | with the intended selector a Note Off built for a channel below 16 decodes to exactly (NoteOff, channel, note, 0) |
| Codec.IntendedNoteOnReencodes | src/mutil.rs:65-116 | a received message that decodes to a note-on and has data3 0 is exactly the Note On built from its record's channel, note and velocity |
| Codec.IntendedNoteOffReencodes | src/mutil.rs:74-116 | a received message that decodes to a note-off and has data2 and data3 0 is exactly the Note Off built from its record's channel and note |
| Codec.NoteOffChannelSixteenIsNoteOn | src/mutil.rs:74-81 | a Note Off on channel 16 has status `0x90`, so even the intended decoder reports it as a Note On on channel 0 |
| Devices.NewDevice | src/mutil.rs:24-35 | the device keeps the driver's id and name; its direction is Input exactly when the driver's is Input, and Output for every other driver direction |
| Devices.MapNew | src/mutil.rs:140 | mapping the driver's list keeps its length and order: position i holds the device made from the driver's position i |
| Devices.Filter | src/mutil.rs:147 | the filtered list is no longer than the input and every device in it has the requested direction |
| Devices.FilterMembers | src/mutil.rs:147 | a device is in the filtered list exactly when it is in the input and has the requested direction |
| Devices.ListDevices | src/mutil.rs:137-148 | with no direction every driver device is listed, in driver order; with a direction every listed device has that direction |
| Devices.ListDevicesFiltered | src/mutil.rs:137-148 | with a direction the result is the driver list read at strictly increasing positions, and those positions are exactly the ones whose device maps to that direction: nothing is dropped, added or reordered |
| Devices.InputsAndOutputsPartition | src/mutil.rs:137-148 | the input devices and the output devices together are as many as the driver's devices |
| Commands.ChannelOf | src/mutil.rs:157 | the channel is the one given in the options, and 0 when none is given |
| Commands.OutputPort.WriteMessage | src/mutil.rs:164 | writing appends the message to what the port has been given |
| Commands.NoteOn | src/mutil.rs:150-165 | the port's written messages grow by exactly the one Note On for the options' channel, the note and the velocity |
| Commands.NoteOff | src/mutil.rs:167-182 | the port's written messages grow by exactly the one Note Off for the options' channel and the note |
| Commands.Trig | src/mutil.rs:184-203 | the port's written messages grow by exactly the note-on's write followed by the note-off's write |
| Commands.NoteOnWritesOne | src/mutil.rs:164 | `note_on` writes one message: status `0x90` plus the channel, the note, the velocity or 100, and 0 |
| Commands.NoteOffWritesOne | src/mutil.rs:181 | `note_off` writes one message: status `0x80` plus the channel, the note, 0 and 0 |
| Commands.TrigWritesOnThenOff | src/mutil.rs:198-202 | `trig` writes exactly two messages, the codec's Note On and then its Note Off for the same channel and note; their statuses differ by `0x10`; with no channel option they are `0x90` and `0x80` |
| Stream.Messages | src/mutil.rs:236-239 | one message per event, in batch order, each the event's driver message copied out unchanged |
| Stream.Sender.Send | src/mutil.rs:238 | sending appends the message to what the channel has carried |
| Stream.ForwardBatch | src/mutil.rs:235-240 | the messages sent grow by exactly the batch's messages, first to last |

## Left out

- Driver context, device lookup, port opening and `default_output_device_id` / `default_input_device_id` with their `unwrap` panics: foreign calls with no visible semantics. The commands take the already opened output port, and the device listing takes the driver's device list as a sequence. (The default device id is evaluated eagerly by `unwrap_or`, so the source panics without a default device even when a device is given; the model does not capture panics.)
- Failed writes: the result of `write_message` is discarded by the source; the model treats every write as delivered.
- Byte overflow in `0x90 + channel` and `0x80 + channel` (a panic in debug builds, a wrap in release builds): Codec.NoteOnMessage, Commands.NoteOn and Commands.Trig require a channel below `0x70`, Codec.NoteOffMessage and Commands.NoteOff one below `0x80`, the channels for which neither happens.
- Channels 16 and up: the source accepts any channel for which the status byte does not overflow, but from channel 16 on `0x90 + channel` and `0x80 + channel` fall into other status ranges (a Note On on channel 16 has status `0xa0`, a Note Off on channels 16 to 31 has a Note On status byte), so both decoders can misreport such a message; `Codec.NoteOffChannelSixteenIsNoteOn` shows the intended decoder reporting a Note Off on channel 16 as a Note On on channel 0. The decoding lemmas cover channels 0 to 15 only.
- Timing: the 40 ms hold in `trig` and the 10 ms poll interval.
- `stream` beyond one batch: the spawned thread, the endless poll loop, `read_n` and its errors, the channel's receiving end and the `println!` calls (concurrency and I/O). Only the forwarding of one batch is modelled.
- JSON text: `serde_json` serialisation of devices and records, and every `println!`, are output formatting; the model stops at the `Device` and `MidiMessageJson` records.
- `src/main.rs`: command-line parsing and dispatch to the `Mutil` methods, with no logic of its own.

## Findings

| source | as written | input that shows it | evidently intended | confidence | as-written member | corrected member |
|---|---|---|---|---|---|---|
| src/mutil.rs:102 | `self.status & 0xf0 >> 4` parses as `status & (0xf0 >> 4)`, the low nibble, so the type is decided by the channel | `note_on(0, 60, None)` has status `0x90` and is reported as Todo; `note_on(8, 60, None)` is reported as NoteOff | `(self.status & 0xf0) >> 4`, the high nibble, so a Note On is reported as NoteOn and a Note Off as NoteOff on channels 0 to 15 | high; not executed | Codec.NoteOnChannelZeroIsTodo | Codec.JsonRecordIntended |

`Codec.JsonRecord` models `json` as written; `Codec.JsonRecordIntended`
stands beside it with the intended selector. `Codec.IntendedDecodeNoteOn`
and `Codec.IntendedDecodeNoteOff` prove that it reports every Note On and
Note Off the tool sends on channels 0 to 15 by its MIDI kind and channel,
and `Codec.IntendedNoteOnReencodes` and `Codec.IntendedNoteOffReencodes`
prove that a decoded note-on whose last byte is 0, or a decoded note-off
whose velocity and last byte are 0, re-encodes to the message received.
