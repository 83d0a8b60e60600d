# Signaling relay: a Dafny model

This project models the WebRTC signaling relay in `server.py`. The relay coordinates exactly one
"sender" and one "receiver" through an offer, an answer and an exchange of ICE candidates. All of
its state is one record (`STATE`): the two connection bindings, the stored offer and answer, and
the two buffered candidate lists.

Every Socket.IO handler is modelled as a pure transition. It takes the current session, the
caller's connection id and the one payload field the handler reads. It returns the next session
and the ordered list of messages it sends, each one addressed to a single connection.

- `State`: the session record, the outbound messages, and Python truthiness of an optional sdp.
- `Gateway`: `on_join` (sender join, receiver join with replay, invalid role) and `on_disconnect`.
- `Router`: `on_offer`, `on_answer` and `on_candidate`, each storing its payload and then forwarding it.
- `Server`: one `Step` per inbound event, `Run` over a trace of events, and the invariants that hold
  across traces. These are the epoch boundaries, append-only candidate lists within an epoch, and
  candidate attribution.
- `Scenarios`: the documented end-to-end behaviours, proved over short traces for arbitrary
  connection ids and payloads.

Modelling choices:
- A connection id is a non-empty string. Socket.IO never issues an empty id, so the source's
  truthiness test on a bound id means "the slot is set".
- The stored offer is tested by Python truthiness, so a stored empty sdp is not replayed.
- A payload that lacks `sdp` or `candidate` is an event whose field is `None`. In the source the key
  lookup raises before any write, so the session is unchanged and nothing is sent.
- The join role is an optional string. A missing role is `None`. Any value other than "sender" or
  "receiver" falls through and is still echoed in the acknowledgment.
- `on_offer` and `on_answer` never read the caller's id, so the model's handlers take none.

## Model

| member | source | states |
|---|---|---|
| Gateway.CandidateReplay | server.py:59-60 | a joining receiver gets one `candidate` message per buffered sender candidate, in stored order |
| Gateway.JoinAsSender | server.py:38-50 | a sender join binds the joiner as sender, keeps the receiver binding exactly, clears the offer, the answer and both candidate lists, and sends only the acknowledgment (no buffered answer or answer candidate is replayed) |
| Gateway.JoinAsReceiver | server.py:52-62 | a receiver join changes only the receiver binding. It sends the joiner the stored offer if it is truthy, then every sender candidate in order, then the acknowledgment, and nothing else |
| Gateway.OnJoin | server.py:28-62 | every join message goes to the joiner and ends with the acknowledgment carrying the raw role. Any other role, or none, leaves the session unchanged and sends only that acknowledgment |
| Gateway.OnDisconnect | server.py:99-114 | the sender leaving clears the sender binding and all handshake data and keeps the receiver. Otherwise the receiver leaving clears only the receiver binding. Anyone else changes nothing. Nothing is ever sent |
| Router.OnOffer | server.py:65-71 | a missing `sdp` changes nothing and sends nothing. Otherwise the offer becomes the sdp, no other field changes, and exactly one copy goes to the receiver iff one is bound |
| Router.OnAnswer | server.py:74-79 | a missing `sdp` changes nothing and sends nothing. Otherwise the answer becomes the sdp, no other field changes, and exactly one copy goes to the sender iff one is bound |
| Router.OnCandidate | server.py:82-96 | a missing `candidate` changes nothing. A candidate from the bound sender is appended to the offer side and goes to the receiver if bound. One from any other connection, bound or not, is appended to the answer side and goes to the sender if bound. Only that list changes, and the total grows by exactly one |
| Server.Step | server.py:27-114 | for every event: messages go only to the caller or to a connection bound before the event; answers are only forwarded live to the bound sender; offers reach a connection only live or by receiver-join replay; the sender binding moves only at an epoch boundary (a sender join or the sender leaving), which clears the handshake; the receiver binding moves only on a receiver join or the receiver leaving; malformed payloads and disconnects send nothing |
| Server.AppendOnlyWithinEpoch | server.py:82-114 | over any trace with no sender join and no disconnect by the bound sender, the sender binding is unchanged and both candidate lists only grow (the old lists are prefixes of the new ones) |
| Server.CandidateAttribution | server.py:12-114 | from the empty session and over any trace: with no sender bound, the offer-side list is empty. With sender `x` bound, the offer side is exactly the candidates `x` sent since the last sender join, and the answer side is exactly those every other connection sent, both in arrival order |
| Server.OfferAndAnswerIgnoreCaller | server.py:64-79 | the outcome of an offer or answer event is the same whichever connection sends it |
| Scenarios.OfferReplayedToLateReceiver | server.py:55-57 | sender joins, sends a non-empty offer, then a receiver joins: the receiver gets the offer exactly once, by the join replay, and before its acknowledgment |
| Scenarios.OfferForwardedLive | server.py:67-71 | sender and receiver join, then an offer is sent: it is forwarded live to the receiver and becomes the stored offer |
| Scenarios.SenderLeavingClearsCandidates | server.py:104-111 | sender joins, sends a candidate and leaves: no sender is bound, the handshake is empty, and the receiver binding is what it was |
| Scenarios.AnswerNotReplayedToLateSender | server.py:38-50 | receiver joins and answers while no sender is bound: the answer is stored and not forwarded. A sender that joins next receives only its acknowledgment, and the answer is gone |
| Scenarios.EarlyCandidateReplayedFirst | server.py:59-60 | a sender candidate sent before the receiver joins reaches the receiver in the join replay, ahead of a candidate sent afterwards, with no other candidate in between |
| Scenarios.SecondSenderSupersedesFirst | server.py:38-50 | two sender joins in a row act as two epoch resets: the second sender is bound, the first sender's offer and candidates are gone, and the receiver binding is kept |
| Scenarios.DualRoleDisconnectKeepsReceiver | server.py:104-114 | a connection bound as both sender and receiver that disconnects is cleared only as the sender, so the receiver slot keeps its closed id |

## Left out

- The Flask app, the static `index` route and `send_from_directory` (server.py:8, server.py:23-25): HTTP and file I/O.
- eventlet monkey-patching and `socketio.run` (server.py:2-3, server.py:116-117): process bootstrap.
- `join_room(ROOM_ID)` and rooms (server.py:21, server.py:35). Every client is put in one constant room that nothing routes through, so each message is addressed straight to its target connection. `ROOM_ID` survives only as the constant in the acknowledgment.
- `print` logging throughout: side effects only.
- Concurrency: handlers run one at a time and atomically on the single session. Serializing them is the transport's job.
- The forwarded payload's extra fields. The source forwards the whole client dict, and the model forwards only the stored sdp or candidate.
- Payload values of other JSON types. The model takes sdp and role to be strings and treats a candidate as an opaque string. A JSON `null` sdp, which Python would store as `None`, is not modelled.
- A payload that is not a dict at all, and the exception Socket.IO logs when a key is missing. Only the effect matters here: nothing changes and nothing is sent.
- The "at most one sender and one receiver" invariant is not a lemma. It holds by construction, because each binding is a single optional slot.
