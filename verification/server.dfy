/** The whole relay as one state machine: every inbound Socket.IO event, applied atomically
    and one at a time to the single session record. */
module Server {
  import opened Wrappers
  import opened State
  import Gateway
  import Router

  /** A client-to-server event with the one payload field its handler reads; `None` stands
      for a payload that lacks that key. */
  datatype Event =
    | Join(role: Option<string>)
    | SendOffer(sdp: Option<string>)
    | SendAnswer(sdp: Option<string>)
    | SendCandidate(candidate: Option<Candidate>)
    | Disconnect

  /** One event as it arrives on one connection. */
  datatype Input = Input(sid: Sid, event: Event)

  /** The events that open a new handshake epoch: a sender join, and the bound sender
      leaving. */
  predicate EpochBoundary(s: Session, sid: Sid, ev: Event)
  {
    ev == Join(Some(SenderRole)) || (ev.Disconnect? && s.sender == Some(sid))
  }

  /** A payload without the one key its handler reads. */
  predicate MissingKey(ev: Event)
  {
    || (ev.SendOffer? && ev.sdp.None?)
    || (ev.SendAnswer? && ev.sdp.None?)
    || (ev.SendCandidate? && ev.candidate.None?)
  }

  /** Dispatch of one event to its handler. */
  function Step(s: Session, sid: Sid, ev: Event): (t: Transition)
    // A malformed payload fails before any change, and a disconnect sends nothing.
    ensures MissingKey(ev) ==> t.session == s && t.emits == []
    ensures ev.Disconnect? ==> t.emits == []
    // Messages go only to the caller or to a connection bound before the event.
    ensures forall e :: e in t.emits ==>
      e.target == sid || Some(e.target) == s.sender || Some(e.target) == s.receiver
    // An answer is only ever forwarded live, by an answer event, to the bound sender.
    ensures forall e :: e in t.emits && e.msg.AnswerMsg? ==>
      ev.SendAnswer? && Some(e.target) == s.sender
    // An offer reaches a connection either live, to the bound receiver, or by replay to a
    // joining receiver.
    ensures forall e :: e in t.emits && e.msg.OfferMsg? ==>
      || (ev.SendOffer? && Some(e.target) == s.receiver)
      || (ev == Join(Some(ReceiverRole)) && e.target == sid)
    // The sender binding moves only at an epoch boundary.
    ensures t.session.sender != s.sender ==> EpochBoundary(s, sid, ev)
    ensures ev == Join(Some(SenderRole)) ==> t.session.sender == Some(sid)
    ensures ev.Disconnect? && s.sender == Some(sid) ==> t.session.sender == None
    // The receiver binding moves only when a receiver joins or the (non-sender) receiver leaves.
    ensures t.session.receiver != s.receiver ==>
      || (ev == Join(Some(ReceiverRole)) && t.session.receiver == Some(sid))
      || (ev.Disconnect? && s.sender != Some(sid) && s.receiver == Some(sid)
          && t.session.receiver == None)
    // An epoch boundary clears the handshake; inside an epoch the candidate lists only grow.
    ensures EpochBoundary(s, sid, ev) ==> HandshakeCleared(t.session)
    ensures !EpochBoundary(s, sid, ev) ==>
      && s.offerCandidates <= t.session.offerCandidates
      && s.answerCandidates <= t.session.answerCandidates
  {
    match ev
    case Join(role) => Gateway.OnJoin(s, sid, role)
    case SendOffer(sdp) => Router.OnOffer(s, sdp)
    case SendAnswer(sdp) => Router.OnAnswer(s, sdp)
    case SendCandidate(c) => Router.OnCandidate(s, sid, c)
    case Disconnect => Gateway.OnDisconnect(s, sid)
  }

  /** A trace of events applied in order from `s`: the final session and every message sent,
      in order. */
  function Run(s: Session, trace: seq<Input>): Transition
    decreases |trace|
  {
    if trace == [] then Transition(s, [])
    else
      var before := Run(s, trace[..|trace| - 1]);
      var last := trace[|trace| - 1];
      var t := Step(before.session, last.sid, last.event);
      Transition(t.session, before.emits + t.emits)
  }

  lemma RunSnoc(s: Session, trace: seq<Input>, x: Input)
    ensures var before := Run(s, trace);
      var t := Step(before.session, x.sid, x.event);
      Run(s, trace + [x]) == Transition(t.session, before.emits + t.emits)
  {
  }

  /** No event of the trace can open a new epoch while `sender` stays bound: no sender join,
      and the sender never leaves. */
  ghost predicate StaysInEpoch(sender: Option<Sid>, trace: seq<Input>)
  {
    forall i :: 0 <= i < |trace| ==>
      trace[i].event != Join(Some(SenderRole)) &&
      !(trace[i].event.Disconnect? && sender == Some(trace[i].sid))
  }

  /** Within one epoch the sender binding is fixed and both candidate lists are append-only. */
  lemma {:induction false} AppendOnlyWithinEpoch(s: Session, trace: seq<Input>)
    requires StaysInEpoch(s.sender, trace)
    ensures Run(s, trace).session.sender == s.sender
    ensures s.offerCandidates <= Run(s, trace).session.offerCandidates
    ensures s.answerCandidates <= Run(s, trace).session.answerCandidates
    decreases |trace|
  {
    if trace != [] {
      var prefix := trace[..|trace| - 1];
      assert StaysInEpoch(s.sender, prefix) by {
        forall i | 0 <= i < |prefix| ensures prefix[i] == trace[i] { }
      }
      AppendOnlyWithinEpoch(s, prefix);
      var last := trace[|trace| - 1];
      assert !EpochBoundary(Run(s, prefix).session, last.sid, last.event);
    }
  }

  /** The candidates of the current epoch, in arrival order: those sent since the last sender
      join in the trace, by `x` (when `fromX`) or by every other connection (otherwise). */
  function EpochCandidates(trace: seq<Input>, x: Sid, fromX: bool): seq<Candidate>
    decreases |trace|
  {
    if trace == [] then []
    else
      var last := trace[|trace| - 1];
      var before := trace[..|trace| - 1];
      if last.event == Join(Some(SenderRole)) then []
      else if last.event.SendCandidate? && last.event.candidate.Some? && (last.sid == x) == fromX then
        EpochCandidates(before, x, fromX) + [last.event.candidate.value]
      else
        EpochCandidates(before, x, fromX)
  }

  /** Candidate attribution from process start: with no sender bound the offer side is empty;
      with sender `x` bound, the offer side holds exactly the candidates `x` sent in this epoch
      and the answer side exactly those every other connection sent, each in arrival order. */
  lemma {:induction false} CandidateAttribution(trace: seq<Input>)
    ensures var s := Run(Empty, trace).session;
      && (s.sender == None ==> s.offerCandidates == [])
      && (s.sender.Some? ==>
            && s.offerCandidates == EpochCandidates(trace, s.sender.value, true)
            && s.answerCandidates == EpochCandidates(trace, s.sender.value, false))
    decreases |trace|
  {
    if trace != [] {
      var prefix := trace[..|trace| - 1];
      CandidateAttribution(prefix);
      var last := trace[|trace| - 1];
      var p := Run(Empty, prefix).session;
      var t := Step(p, last.sid, last.event);
      match last.event
      case Join(role) =>
      case SendOffer(sdp) =>
      case SendAnswer(sdp) =>
      case SendCandidate(c) =>
        if c.Some? && p.sender.Some? {
          var x := p.sender.value;
          if last.sid == x {
            assert t.session.offerCandidates == p.offerCandidates + [c.value];
          } else {
            assert t.session.answerCandidates == p.answerCandidates + [c.value];
          }
        }
      case Disconnect =>
    }
  }

  /** Offer and answer handling does not depend on which connection sent the message. */
  lemma OfferAndAnswerIgnoreCaller(s: Session, a: Sid, b: Sid, sdp: Option<string>)
    ensures Step(s, a, SendOffer(sdp)) == Step(s, b, SendOffer(sdp))
    ensures Step(s, a, SendAnswer(sdp)) == Step(s, b, SendAnswer(sdp))
  {
  }
}
