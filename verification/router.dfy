/** Message relay: the `offer`, `answer` and `candidate` handlers of server.py. Each stores
    its payload first and then forwards it to the peer slot if that slot is bound. */
module Router {
  import opened Wrappers
  import opened State

  /** One message to the peer if it is bound, none otherwise. */
  function Forward(peer: Option<Sid>, m: Message): (r: seq<Emit>)
    ensures |r| == (if peer.Some? then 1 else 0)
    ensures forall e :: e in r ==> Some(e.target) == peer && e.msg == m
  {
    if peer.Some? then [Emit(peer.value, m)] else []
  }

  /** The `offer` handler. It never reads the caller's id, so it takes none. A payload without
      `sdp` fails before anything changes. */
  function OnOffer(s: Session, sdp: Option<string>): (t: Transition)
    ensures sdp.None? ==> t.session == s && t.emits == []
    ensures sdp.Some? ==>
      && t.session.offer == sdp
      && t.session == s.(offer := t.session.offer)
      && |t.emits| == (if s.receiver.Some? then 1 else 0)
      && forall e :: e in t.emits ==> Some(e.target) == s.receiver && e.msg == OfferMsg(sdp.value)
  {
    match sdp
    case None => Transition(s, [])
    case Some(v) => Transition(s.(offer := Some(v)), Forward(s.receiver, OfferMsg(v)))
  }

  /** The `answer` handler, symmetric to `offer` but forwarding to the sender. */
  function OnAnswer(s: Session, sdp: Option<string>): (t: Transition)
    ensures sdp.None? ==> t.session == s && t.emits == []
    ensures sdp.Some? ==>
      && t.session.answer == sdp
      && t.session == s.(answer := t.session.answer)
      && |t.emits| == (if s.sender.Some? then 1 else 0)
      && forall e :: e in t.emits ==> Some(e.target) == s.sender && e.msg == AnswerMsg(sdp.value)
  {
    match sdp
    case None => Transition(s, [])
    case Some(v) => Transition(s.(answer := Some(v)), Forward(s.sender, AnswerMsg(v)))
  }

  /** The `candidate` handler. A candidate from the bound sender joins the offer side and goes
      to the receiver; one from any other connection, bound or not, joins the answer side and
      goes to the sender. Exactly one list grows, by exactly this candidate. */
  function OnCandidate(s: Session, sid: Sid, candidate: Option<Candidate>): (t: Transition)
    ensures candidate.None? ==> t.session == s && t.emits == []
    ensures candidate.Some? && s.sender == Some(sid) ==>
      && t.session.offerCandidates == s.offerCandidates + [candidate.value]
      && t.session == s.(offerCandidates := t.session.offerCandidates)
      && |t.emits| == (if s.receiver.Some? then 1 else 0)
      && forall e :: e in t.emits ==>
           Some(e.target) == s.receiver && e.msg == CandidateMsg(candidate.value)
    ensures candidate.Some? && s.sender != Some(sid) ==>
      && t.session.answerCandidates == s.answerCandidates + [candidate.value]
      && t.session == s.(answerCandidates := t.session.answerCandidates)
      && |t.emits| == (if s.sender.Some? then 1 else 0)
      && forall e :: e in t.emits ==>
           Some(e.target) == s.sender && e.msg == CandidateMsg(candidate.value)
    ensures candidate.Some? ==> CandidateCount(t.session) == CandidateCount(s) + 1
  {
    match candidate
    case None => Transition(s, [])
    case Some(c) =>
      if s.sender == Some(sid) then
        Transition(s.(offerCandidates := s.offerCandidates + [c]), Forward(s.receiver, CandidateMsg(c)))
      else
        Transition(s.(answerCandidates := s.answerCandidates + [c]), Forward(s.sender, CandidateMsg(c)))
  }
}
