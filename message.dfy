/**
 * Events and tags exchanged between the coordinator, the workers, the radio
 * threads and the MAC thread.
 */
module Message {

  /** The event kinds the coordinator dispatches on or emits. */
  datatype EventType =
    | PacketRX | FFT | Beam | Demul | Decode | RANUpdate | PacketToMac
    | PacketFromMac | Encode | Precode | IFFT | Broadcast | PacketTX
    | PacketPilotTX | SNRReport

  /**
   * A work tag: a frame, a symbol within it, and the unit of work inside
   * the symbol (antenna, subcarrier block start, codeblock or user, by stage).
   */
  datatype Tag = Tag(frame: nat, symbol: nat, unit: nat)

  /** An event carries a kind and the tags it applies to. */
  datatype Event = Event(kind: EventType, tags: seq<Tag>)

  /** An event placed on the task queue of stage `queue` with parity `qid`. */
  datatype Task = Task(queue: EventType, qid: nat, event: Event)

  /** Queue parity of a frame: `frame_id & 1`. */
  function QueueId(frame: nat): (qid: nat)
    ensures qid < 2
    ensures qid == 0 <==> frame % 2 == 0
  {
    frame % 2
  }
}
