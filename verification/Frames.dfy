/** The frames of the tunnel protocol, and the measurements taken on a log of frames. */
module Frames {

  newtype Byte = x: int | 0 <= x < 256
  type Bytes = seq<Byte>

  datatype Frame =
    | Register(target: string)
    | RegisterAck(target: string)
    | Open(id: nat, target: string)
    | Data(id: nat, data: Bytes)
    | Close(id: nat, error: string)
    | Keepalive

  /** Everything one end ever put on, or took off, the stream; the newest frame is `last`. */
  datatype Log = Empty | Append(front: Log, last: Frame)

  /** `got` is what has been taken so far of everything put on: the stream is a FIFO. */
  ghost predicate Prefix(got: Log, log: Log) {
    got == log || (log.Append? && Prefix(got, log.front))
  }

  /** How many OPENs a log holds. */
  function Opens(log: Log): nat {
    match log
    case Empty => 0
    case Append(front, f) => Opens(front) + if f.Open? then 1 else 0
  }

  /** How many CLOSEs a log holds for one stream. */
  function Closes(log: Log, id: nat): nat {
    match log
    case Empty => 0
    case Append(front, f) => Closes(front, id) + if f.Close? && f.id == id then 1 else 0
  }

  /** The bytes a frame contributes to one stream. */
  function Chunk(f: Frame, id: nat): Bytes {
    if f.Data? && f.id == id then f.data else []
  }

  /** The byte stream a log carries for one stream id: chunk boundaries are forgotten. */
  function Payload(log: Log, id: nat): Bytes {
    match log
    case Empty => []
    case Append(front, f) => Payload(front, id) + Chunk(f, id)
  }

  /** No DATA of this stream follows a CLOSE of it. */
  ghost predicate DataBeforeClose(log: Log, id: nat) {
    match log
    case Empty => true
    case Append(front, f) => DataBeforeClose(front, id) && (f.Data? && f.id == id ==> Closes(front, id) == 0)
  }

  /** With `known` ids opened so far: an OPEN takes the next id, DATA and CLOSE only speak
      of opened ids. */
  predicate Fits(f: Frame, known: nat) {
    match f
    case Open(id, _) => id == known + 1
    case Data(id, _) => 1 <= id <= known
    case Close(id, _) => 1 <= id <= known
    case _ => true
  }

  /** Every frame of an opener's log fits the OPENs before it. */
  ghost predicate WellOpened(log: Log) {
    match log
    case Empty => true
    case Append(front, f) => WellOpened(front) && Fits(f, Opens(front))
  }

  /** An answerer's log: no OPENs, and only ids among the first `known`. */
  ghost predicate Answers(log: Log, known: nat) {
    match log
    case Empty => true
    case Append(front, f) => Answers(front, known) && !f.Open? && Fits(f, known)
  }

  lemma {:induction false} AnswersMonotone(log: Log, known: nat, more: nat)
    requires Answers(log, known) && known <= more
    ensures Answers(log, more)
  {
    if log.Append? {
      AnswersMonotone(log.front, known, more);
    }
  }

  lemma {:induction false} PrefixMeasures(got: Log, log: Log, id: nat)
    requires Prefix(got, log)
    ensures Opens(got) <= Opens(log)
    ensures Closes(got, id) <= Closes(log, id)
    ensures Payload(got, id) <= Payload(log, id)
  {
    if got != log {
      PrefixMeasures(got, log.front, id);
    }
  }

  /** The frame after a prefix of a well-opened log fits that prefix. */
  lemma {:induction false} NextFits(got: Log, f: Frame, log: Log)
    requires Prefix(Append(got, f), log) && WellOpened(log)
    ensures Fits(f, Opens(got))
  {
    if Append(got, f) != log {
      NextFits(got, f, log.front);
    }
  }

  /** The frame after a prefix of an answerer's log is an answer too. */
  lemma {:induction false} NextAnswers(got: Log, f: Frame, log: Log, known: nat)
    requires Prefix(Append(got, f), log) && Answers(log, known)
    ensures !f.Open? && Fits(f, known)
  {
    if Append(got, f) != log {
      NextAnswers(got, f, log.front, known);
    }
  }

  lemma {:induction false} NoCloseIsOrdered(log: Log, id: nat)
    requires Closes(log, id) == 0
    ensures DataBeforeClose(log, id)
  {
    if log.Append? {
      NoCloseIsOrdered(log.front, id);
    }
  }
}
