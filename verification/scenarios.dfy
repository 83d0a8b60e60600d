/** The relay's documented behaviour on short event traces, for arbitrary connection ids
    and payloads. */
module Scenarios {
  import opened Wrappers
  import opened State
  import opened Server
  import Gateway

  /** Unfolds `Run` over a trace of one event. */
  lemma Run1(s: Session, x1: Input)
    ensures Run(s, [x1]) == Step(s, x1.sid, x1.event)
  {
  }

  /** Unfolds `Run` over a trace of two events. */
  lemma Run2(s: Session, x1: Input, x2: Input)
    ensures var t := Run(s, [x1]);
      var t2 := Step(t.session, x2.sid, x2.event);
      Run(s, [x1, x2]) == Transition(t2.session, t.emits + t2.emits)
  {
  }

  /** Unfolds `Run` over a trace of three events. */
  lemma Run3(s: Session, x1: Input, x2: Input, x3: Input)
    ensures var t := Run(s, [x1, x2]);
      var t3 := Step(t.session, x3.sid, x3.event);
      Run(s, [x1, x2, x3]) == Transition(t3.session, t.emits + t3.emits)
  {
    RunSnoc(s, [x1, x2], x3);
    assert [x1, x2] + [x3] == [x1, x2, x3];
  }

  /** Unfolds `Run` over a trace of four events. */
  lemma Run4(s: Session, x1: Input, x2: Input, x3: Input, x4: Input)
    ensures var t := Run(s, [x1, x2, x3]);
      var t4 := Step(t.session, x4.sid, x4.event);
      Run(s, [x1, x2, x3, x4]) == Transition(t4.session, t.emits + t4.emits)
  {
    RunSnoc(s, [x1, x2, x3], x4);
    assert [x1, x2, x3] + [x4] == [x1, x2, x3, x4];
  }

  /** An offer sent before any receiver was bound reaches the receiver exactly once, by the
      replay on the receiver's join and not by a live forward. */
  lemma OfferReplayedToLateReceiver(a: Sid, r: Sid, sdp: string)
    requires sdp != ""
    ensures var trace := [Input(a, Join(Some(SenderRole))), Input(a, SendOffer(Some(sdp))),
                          Input(r, Join(Some(ReceiverRole)))];
      && Run(Empty, trace[..2]).emits == [Gateway.Ack(a, Some(SenderRole))]
      && Run(Empty, trace).emits == [Gateway.Ack(a, Some(SenderRole)), Emit(r, OfferMsg(sdp)),
                                     Gateway.Ack(r, Some(ReceiverRole))]
  {
    var x1, x2, x3 := Input(a, Join(Some(SenderRole))), Input(a, SendOffer(Some(sdp))),
                      Input(r, Join(Some(ReceiverRole)));
    Run1(Empty, x1);
    Run2(Empty, x1, x2);
    Run3(Empty, x1, x2, x3);
    assert [x1, x2, x3][..2] == [x1, x2];
  }

  /** With both parties bound, an offer is forwarded live and becomes the stored offer. */
  lemma OfferForwardedLive(a: Sid, r: Sid, sdp: string)
    ensures var trace := [Input(a, Join(Some(SenderRole))), Input(r, Join(Some(ReceiverRole))),
                          Input(a, SendOffer(Some(sdp)))];
      && Run(Empty, trace).emits == [Gateway.Ack(a, Some(SenderRole)),
                                     Gateway.Ack(r, Some(ReceiverRole)), Emit(r, OfferMsg(sdp))]
      && Run(Empty, trace).session.offer == Some(sdp)
  {
    var x1, x2, x3 := Input(a, Join(Some(SenderRole))), Input(r, Join(Some(ReceiverRole))),
                      Input(a, SendOffer(Some(sdp)));
    Run1(Empty, x1);
    Run2(Empty, x1, x2);
    Run3(Empty, x1, x2, x3);
  }

  /** A sender that sends a candidate and leaves takes the whole handshake with it; whatever
      receiver was bound stays bound. */
  lemma SenderLeavingClearsCandidates(s: Session, a: Sid, c: Candidate)
    ensures var trace := [Input(a, Join(Some(SenderRole))), Input(a, SendCandidate(Some(c))),
                          Input(a, Disconnect)];
      var final := Run(s, trace).session;
      && final.sender == None
      && final.receiver == s.receiver
      && HandshakeCleared(final)
  {
    var x1, x2, x3 := Input(a, Join(Some(SenderRole))), Input(a, SendCandidate(Some(c))),
                      Input(a, Disconnect);
    Run1(s, x1);
    Run2(s, x1, x2);
    Run3(s, x1, x2, x3);
  }

  /** An answer sent while no sender is bound is stored but never forwarded, and a sender
      that joins afterwards gets only its acknowledgment: the answer is dropped by the new
      epoch, not replayed. */
  lemma AnswerNotReplayedToLateSender(r: Sid, a: Sid, sdp: string)
    ensures var trace := [Input(r, Join(Some(ReceiverRole))), Input(r, SendAnswer(Some(sdp))),
                          Input(a, Join(Some(SenderRole)))];
      && Run(Empty, trace[..2]).session.answer == Some(sdp)
      && Run(Empty, trace[..2]).emits == [Gateway.Ack(r, Some(ReceiverRole))]
      && Run(Empty, trace).emits == [Gateway.Ack(r, Some(ReceiverRole)),
                                     Gateway.Ack(a, Some(SenderRole))]
      && Run(Empty, trace).session.answer == None
  {
    var x1, x2, x3 := Input(r, Join(Some(ReceiverRole))), Input(r, SendAnswer(Some(sdp))),
                      Input(a, Join(Some(SenderRole)));
    Run1(Empty, x1);
    Run2(Empty, x1, x2);
    Run3(Empty, x1, x2, x3);
    assert [x1, x2, x3][..2] == [x1, x2];
  }

  /** A candidate the sender sent before the receiver joined reaches the receiver in the
      join replay, ahead of every candidate the sender sends later. */
  lemma EarlyCandidateReplayedFirst(a: Sid, r: Sid, c1: Candidate, c2: Candidate)
    ensures var trace := [Input(a, Join(Some(SenderRole))), Input(a, SendCandidate(Some(c1))),
                          Input(r, Join(Some(ReceiverRole))), Input(a, SendCandidate(Some(c2)))];
      Run(Empty, trace).emits == [Gateway.Ack(a, Some(SenderRole)), Emit(r, CandidateMsg(c1)),
                                  Gateway.Ack(r, Some(ReceiverRole)), Emit(r, CandidateMsg(c2))]
  {
    var x1, x2, x3, x4 := Input(a, Join(Some(SenderRole))), Input(a, SendCandidate(Some(c1))),
                          Input(r, Join(Some(ReceiverRole))), Input(a, SendCandidate(Some(c2)));
    Run1(Empty, x1);
    Run2(Empty, x1, x2);
    Run3(Empty, x1, x2, x3);
    Run4(Empty, x1, x2, x3, x4);
  }

  /** A second sender join fully supersedes the first sender: its binding and every piece
      of handshake data it produced are gone, and the receiver stays bound. */
  lemma SecondSenderSupersedesFirst(s: Session, a: Sid, b: Sid, sdp: string, c: Candidate)
    ensures var trace := [Input(a, Join(Some(SenderRole))), Input(a, SendOffer(Some(sdp))),
                          Input(a, SendCandidate(Some(c))), Input(b, Join(Some(SenderRole)))];
      var final := Run(s, trace).session;
      && final.sender == Some(b)
      && final.receiver == s.receiver
      && HandshakeCleared(final)
  {
    var x1, x2, x3, x4 := Input(a, Join(Some(SenderRole))), Input(a, SendOffer(Some(sdp))),
                          Input(a, SendCandidate(Some(c))), Input(b, Join(Some(SenderRole)));
    Run1(s, x1);
    Run2(s, x1, x2);
    Run3(s, x1, x2, x3);
    Run4(s, x1, x2, x3, x4);
  }

  /** One connection bound as both sender and receiver that disconnects is removed as the
      sender only: the receiver slot keeps its (now closed) id. */
  lemma DualRoleDisconnectKeepsReceiver(a: Sid)
    ensures var trace := [Input(a, Join(Some(SenderRole))), Input(a, Join(Some(ReceiverRole))),
                          Input(a, Disconnect)];
      var final := Run(Empty, trace).session;
      final.sender == None && final.receiver == Some(a)
  {
    var x1, x2, x3 := Input(a, Join(Some(SenderRole))), Input(a, Join(Some(ReceiverRole))),
                      Input(a, Disconnect);
    Run1(Empty, x1);
    Run2(Empty, x1, x2);
    Run3(Empty, x1, x2, x3);
  }
}
