/** The relay's single session record (the `STATE` dictionary of server.py) and the
    messages the relay sends back to its clients. */
module State {
  import opened Wrappers

  /** A connection id. Socket.IO never hands out an empty id, so Python's truthiness test on a
      bound id (`if STATE["receiver_id"]:`) is the same as "the slot is set". */
  type Sid = s: string | s != "" witness "sid"

  /** An ICE candidate exactly as a client sent it; the relay stores and forwards it without
      looking inside. */
  type Candidate = string

  /** The one room every client is put in; it only appears in the join acknowledgment. */
  const RoomId: string := "my_room"
  const SenderRole: string := "sender"
  const ReceiverRole: string := "receiver"

  /** The handshake state for exactly one sender/receiver pair. */
  datatype Session = Session(
    sender: Option<Sid>,
    receiver: Option<Sid>,
    offer: Option<string>,
    offerCandidates: seq<Candidate>,
    answer: Option<string>,
    answerCandidates: seq<Candidate>)

  /** The record as the process starts. */
  const Empty: Session := Session(None, None, None, [], None, [])

  /** Server-to-client payloads; a forwarded message carries only the value the relay
      stores (the sdp or the candidate). */
  datatype Message =
    | OfferMsg(sdp: string)
    | AnswerMsg(sdp: string)
    | CandidateMsg(candidate: Candidate)
    | JoinedRoom(room: string, role: Option<string>)

  /** The Socket.IO event name each message is sent under. */
  function EventName(m: Message): string
  {
    match m
    case OfferMsg(_) => "offer"
    case AnswerMsg(_) => "answer"
    case CandidateMsg(_) => "candidate"
    case JoinedRoom(_, _) => "joined_room"
  }

  /** One outbound message, addressed to a single connection. */
  datatype Emit = Emit(target: Sid, msg: Message)

  /** What a handler produces: the next session and the messages it sends, in order. */
  datatype Transition = Transition(session: Session, emits: seq<Emit>)

  /** Python truthiness of an optional sdp: unset and the empty string are both false. */
  predicate Truthy(o: Option<string>)
  {
    o.Some? && o.value != ""
  }

  /** No handshake data at all: what an epoch boundary leaves behind. */
  predicate HandshakeCleared(s: Session)
  {
    && s.offer == None
    && s.offerCandidates == []
    && s.answer == None
    && s.answerCandidates == []
  }

  /** The two sessions agree on every handshake field (everything but the two bindings). */
  predicate SameHandshake(s: Session, s': Session)
  {
    && s'.offer == s.offer
    && s'.offerCandidates == s.offerCandidates
    && s'.answer == s.answer
    && s'.answerCandidates == s.answerCandidates
  }

  /** How many candidates the session buffers, from both sides. */
  function CandidateCount(s: Session): nat
  {
    |s.offerCandidates| + |s.answerCandidates|
  }
}
