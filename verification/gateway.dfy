/** Role binding: the `join` and `disconnect` handlers of server.py. */
module Gateway {
  import opened Wrappers
  import opened State

  /** The `joined_room` acknowledgment, echoing the role value exactly as the client sent it. */
  function Ack(sid: Sid, role: Option<string>): Emit
  {
    Emit(sid, JoinedRoom(RoomId, role))
  }

  /** The buffered sender candidates replayed to a joining receiver, one message each,
      in stored order. */
  function CandidateReplay(target: Sid, cs: seq<Candidate>): (r: seq<Emit>)
    ensures |r| == |cs|
    ensures forall i :: 0 <= i < |cs| ==> r[i] == Emit(target, CandidateMsg(cs[i]))
  {
    if cs == [] then [] else [Emit(target, CandidateMsg(cs[0]))] + CandidateReplay(target, cs[1..])
  }

  /** A sender join opens a new handshake epoch: the joiner becomes the sender, the receiver
      binding survives, all handshake data is dropped, and nothing buffered is replayed. */
  function JoinAsSender(s: Session, sid: Sid): (t: Transition)
    ensures t.session.sender == Some(sid)
    ensures t.session.receiver == s.receiver
    ensures HandshakeCleared(t.session)
    ensures t.emits == [Ack(sid, Some(SenderRole))]
  {
    var epoch := Empty.(sender := Some(sid), receiver := s.receiver);
    Transition(epoch, [Ack(sid, Some(SenderRole))])
  }

  /** A receiver join rebinds only the receiver and replays to it, in this order: the stored
      offer if it is truthy, every buffered sender candidate, then the acknowledgment. */
  function JoinAsReceiver(s: Session, sid: Sid): (t: Transition)
    ensures t.session.receiver == Some(sid)
    ensures t.session.sender == s.sender
    ensures SameHandshake(s, t.session)
    ensures var k := if Truthy(s.offer) then 1 else 0;
      && |t.emits| == k + |s.offerCandidates| + 1
      && (Truthy(s.offer) ==> t.emits[0] == Emit(sid, OfferMsg(s.offer.value)))
      && (forall i :: 0 <= i < |s.offerCandidates| ==>
            t.emits[k + i] == Emit(sid, CandidateMsg(s.offerCandidates[i])))
      && t.emits[|t.emits| - 1] == Ack(sid, Some(ReceiverRole))
  {
    var offer := if Truthy(s.offer) then [Emit(sid, OfferMsg(s.offer.value))] else [];
    var replay := offer + CandidateReplay(sid, s.offerCandidates);
    Transition(s.(receiver := Some(sid)), replay + [Ack(sid, Some(ReceiverRole))])
  }

  /** The `join` handler. Every message goes to the joiner and the last one is always the
      acknowledgment; a role other than "sender" or "receiver" (or none) binds nothing. */
  function OnJoin(s: Session, sid: Sid, role: Option<string>): (t: Transition)
    ensures |t.emits| > 0 && t.emits[|t.emits| - 1] == Ack(sid, role)
    ensures forall e :: e in t.emits ==> e.target == sid
    ensures role != Some(SenderRole) && role != Some(ReceiverRole) ==>
      t.session == s && t.emits == [Ack(sid, role)]
  {
    if role == Some(SenderRole) then JoinAsSender(s, sid)
    else if role == Some(ReceiverRole) then JoinAsReceiver(s, sid)
    else Transition(s, [Ack(sid, role)])
  }

  /** The `disconnect` handler: the sender leaving clears the sender binding and the whole
      handshake but keeps the receiver; otherwise the receiver leaving clears only its binding;
      anyone else changes nothing. It never sends anything. */
  function OnDisconnect(s: Session, sid: Sid): (t: Transition)
    ensures t.emits == []
    ensures s.sender == Some(sid) ==>
      t.session.sender == None && t.session.receiver == s.receiver && HandshakeCleared(t.session)
    ensures s.sender != Some(sid) && s.receiver == Some(sid) ==>
      t.session.receiver == None && t.session.sender == s.sender && SameHandshake(s, t.session)
    ensures s.sender != Some(sid) && s.receiver != Some(sid) ==> t.session == s
  {
    if s.sender == Some(sid) then
      Transition(Empty.(receiver := s.receiver), [])
    else if s.receiver == Some(sid) then
      Transition(s.(receiver := None), [])
    else
      Transition(s, [])
  }
}
