/** The forwarding step of the event stream: one batch read from the input port is sent on, in order. */
module Stream {
  import opened Native
  import Codec

  /** A driver event (`portmidi::MidiEvent`): a message and its timestamp; forwarding drops the timestamp. */
  datatype MidiEvent = MidiEvent(message: Codec.DriverMessage, timestamp: u32)

  /** The sending end of the channel that carries received messages to the caller. */
  class Sender {
    var sent: seq<Codec.MidiMessage>

    constructor ()
      ensures sent == []
    {
      sent := [];
    }

    /** `send`. */
    method Send(m: Codec.MidiMessage)
      modifies this
      ensures sent == old(sent) + [m]
    {
      sent := sent + [m];
    }
  }

  /** The messages of a batch of events, copied out of the driver's struct, in batch order. */
  function Messages(events: seq<MidiEvent>): (ms: seq<Codec.MidiMessage>)
    ensures |ms| == |events|
    ensures forall i :: 0 <= i < |events| ==> Codec.ToPortmidi(ms[i]) == events[i].message
  {
    if events == [] then []
    else [Codec.FromPortmidi(events[0].message)] + Messages(events[1..])
  }

  /** One batch of the poll loop: every event's message is sent, first to last. */
  method ForwardBatch(events: seq<MidiEvent>, tx: Sender)
    modifies tx
    ensures tx.sent == old(tx.sent) + Messages(events)
  {
    for i := 0 to |events|
      invariant tx.sent == old(tx.sent) + Messages(events[..i])
    {
      var msg := Codec.FromPortmidi(events[i].message);
      assert Messages(events[..i + 1]) == Messages(events[..i]) + [msg] by {
        MessagesAppend(events[..i], events[i]);
        assert events[..i + 1] == events[..i] + [events[i]];
      }
      tx.Send(msg);
    }
    assert events[..|events|] == events;
  }

  /** Copying out a batch extended by one event extends the messages by that event's message. */
  lemma {:induction false} MessagesAppend(events: seq<MidiEvent>, e: MidiEvent)
    ensures Messages(events + [e]) == Messages(events) + [Codec.FromPortmidi(e.message)]
  {
    if events != [] {
      assert (events + [e])[1..] == events[1..] + [e];
      MessagesAppend(events[1..], e);
    }
  }
}
