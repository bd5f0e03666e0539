# The resumable tunnel, its wake and suspend policies, and reply correlation

An agent runs inside an actor that may be suspended at any moment. Its connections to the outside go
through a sidecar in the actor and a broker outside. The two speak a resumable byte-stream protocol over
a tunnel that dies with every suspend: each side keeps its unacknowledged bytes in a replay buffer, the
sidecar re-dials, ATTACH and ATTACH_OK exchange offsets, and both sides replay. The broker wakes a
suspended actor when something arrives for it; the sidecar suspends an actor that only waits. This
project models those programs in Dafny and proves what they promise over every run.

## How it is laid out

| files | what they hold |
|---|---|
| `Streams`, `ReplayBuffer`, `Wire`, `Layout`, `Messages` | offsets and the receiver's rule, the replay buffer, the frame codec and where each field lies in it |
| `BrokerSession`, `ClientSession` | what each handler of the two session halves does, as functions |
| `SessionObject`, `ClientObject`, `Tables` | the same handlers as objects updated in place, the two producer loops, the session table and the tunnels' registers |
| `Protocol` | one session as a state machine: agent, sidecar, every tunnel ever dialled with its frames in flight, broker, every incarnation of the session |
| `Safety`, `Introduction`, `Delivery`, `Upstream`, `Chains`, `Told` | its invariants, kept by every step |
| `DeliveryResults`, `Incarnations`, `Recovery`, `Oversize`, `Starving`, `ReplayLimit` | what the invariants mean, and the exact limits of what is promised |
| `Counterexamples`, `LimitRuns`, `UnheardClose` | runs that reach those limits |
| `WakePolicy`, `Flags` | every sequence of events on one session: the wakes it issues, what its flags remember, when it is unbound |
| `Binding`, `Resumer` | session table, registers and resume loops under every interleaving |
| `Activity`, `Suspender`, `SuspendRuns`, `SuspendDue` | activity and ingress counters, the poll loop, and both together |
| `Replies` | parked clients, one-slot channels and retry loops |

`dafny verify dfyconfig.toml` checks everything.

## The tunnel's state machine

A state of `Protocol` holds the bytes the agent has sent and received, the sidecar's half of the session,
one pair of frame queues per tunnel the sidecar ever dialled, and every session object the broker ever
created for the key. Any tunnel may lose a suffix of either queue, and everything written to it later, at
any step. The sidecar reads its newest tunnel only; the broker may still be reading frames of older ones.
An upstream write, a dial, a tunnel write and a write to the agent may each fail.

These assumptions are made:

- Checking, writing upstream and counting of one DATA frame are one step, and so are completing the dial,
  flushing the queued bytes and counting them.
- Binding, attaching and replaying are one step of the broker; appending and sending, and registering and
  sending OPEN, are one step of the sidecar. ATTACH is written after the tunnel is current and before the
  sidecar reads from it.
- A failed write to upstream has delivered none of its bytes. After the close has been passed on to the
  agent, a write to the agent fails.
- A session's target is not empty and is allowed by policy; targets and close reasons are within the
  encoder's limit for strings.
- Offsets and counters do not wrap. There is one clock, and it does not run backwards.

## What turned out to have limits

- A replay is one DATA frame of everything that is missing. Above 256 KiB the encoder refuses it, and no
  run of the two programs delivers another byte. The agent can be brought up to date exactly when what it
  misses fits (`DeliveredIffFits`); nine full reads while the actor is suspended are too many
  (`NineReadsStrandAgent`). The same holds of the sidecar's replay (`UpstreamStarves`).
- A recreated session needs the agent's bytes from the first one on, and the sidecar may have trimmed them
  for the incarnation before (`RecreatedSessionStarves`). When nothing more is on its way, a live session,
  half-closed or not, can be completed exactly when nothing it needs was trimmed, the agent has a prefix of
  what it has read, all of it if the close was passed on, and both replays fit (`RecoversIff`). One that the
  broker does not hold, and of which the agent has nothing, can be recreated and completed exactly when
  nothing was trimmed and all that the agent sent fits (`RecreatesIff`); if its OPEN was lost nothing can
  have been trimmed (`LostOpenRecoversIff`).
- `onData` in `internal/broker/session.go` says that a DATA frame beyond the mark should not happen. It does
  after a failed write to upstream, whose bytes are not counted (`FailedWriteLeavesGap`), and without any
  failure when the agent writes before the ATTACH of a new tunnel is answered
  (`WriteBeforeAttachOkLeavesGap`). On a tunnel that is up and has lost nothing, the frames in flight bring
  the broker everything exactly when one of them carries its next byte (`UpstreamContiguousIff`). That is so
  from when an attach was served until the tunnel or a write to upstream fails (`UpstreamContiguous`), and
  after a failure a reconnect closes the gap.
- After a reconnect at the end of the stream, bytes whose acknowledgement was lost stay in the broker's
  buffer: nothing is replayed, so nothing is acknowledged again (`LostAckKeepsBytes`; `Recovered`, last
  clause, says when).
- A frame left over on an old tunnel can recreate a finished session, and the agent then reads the bytes
  of two upstream connections as one stream (`StaleOpenMixesIncarnations`). The agent's stream is always a
  prefix of the current incarnation's exactly when every session is created clean: the one before it, if
  any, never read a byte (`PrefixIffCreatedClean`). The broker tests the offset in the frame instead, which
  implies this only on the newest tunnel (`NewestCreationIsClean`).
- An introduction left over on an old tunnel is refused by the replay buffer once its bytes have been
  acknowledged (`AttachIsServedIff`, `StaleOpenIsRefused`), and one on the newest tunnel when the agent has
  received more than a recreated session has read (`NewestAttachIsServedIff`).
- A write to upstream that fails closes the stream towards the agent although upstream may still send
  (`FailedWriteEndsEarly`). From every state in which the close is recorded while upstream is still read, the
  buffer has room and the agent can be brought up to date, some run passes the close on and then loses the
  next byte for good (`EarlyCloseLosesBytes`). Unless a failed write recorded the close, the end of stream is
  never early (`EofNeverEarly`).
- While a session is bound to the newest tunnel and that has lost nothing, everything it has to tell is with the
  sidecar or on its way (`EverythingIsTold`), with one exception. An attach beyond what a recreated session has
  read is answered without the close (`ReplyTells` says exactly when), and bytes that upstream sends afterwards
  do not bring it (`CloseGoesUnheard`). It cannot happen while the agent has no more than the session had read
  when it recorded the close, or nothing but bytes of that session.
- A session that was destroyed with its request outstanding still wakes the actor when its tunnel drops
  (`DeadSessionWakes`).
- `internal/activitystatus/status.go` calls the blocked time the age of the oldest call in flight. The
  tracker reports the time since calls were last absent. That is the age exactly while the call that found
  none in flight has not ended, or another in flight began at the same instant (`ReportsOldestIff`). The
  model follows the tracker.

## Model

| member | source | states |
|---|---|---|
| `Streams.AcceptExtendsPrefix` | internal/broker/session.go:273-289 | taking a true slice that starts at or before the mark extends a prefix of the stream to a longer prefix: duplicates are cut exactly and nothing is skipped |
| `ReplayBuffers.BufferIsWindow` | internal/tunnel/buffer.go:47-85 | over every history of Append and TrimTo the buffer is the window from base to End of all accepted bytes, within its cap, and neither end moves back |
| `ReplayBuffers.ReplayBuffer.Append` | internal/tunnel/buffer.go:47-53 | appends exactly if the bytes fit; a refusal changes nothing |
| `ReplayBuffers.ReplayBuffer.TrimTo` | internal/tunnel/buffer.go:70-85 | the base moves to the offset, clamped to the ends, and the rest of the stream stays retained |
| `ReplayBuffers.ReplayBuffer.From` | internal/tunnel/buffer.go:91-99 | returns the tail of everything ever appended, or refuses exactly below base and beyond the end |
| `Wire.RoundTrip` | internal/tunnel/wire.go:172-328 | decoding an accepted encoding followed by any tail returns that frame and that tail |
| `Wire.StreamRoundTrip` | internal/tunnel/wire.go:155-170 | the same for every list of frames written one after the other |
| `Wire.NoStrictPrefixDecodes` | internal/tunnel/wire.go:211-328 | no strict prefix of an encoding decodes; it is reported as truncated |
| `Wire.DecodeStable` | internal/tunnel/wire.go:211-328 | bytes that arrive later neither alter a decoded frame nor turn a refused one into a frame |
| `Wire.DecodedWasEncoded` | internal/tunnel/wire.go:172-328 | whatever decodes to a frame that the encoder accepts is the encoding of that frame |
| `Wire.CutDeliversFramePrefix` | internal/tunnel/wire.go:155-170 | a connection cut after any number of bytes delivers a prefix of the frames written |
| `Wire.OversizeRefused` | internal/tunnel/wire.go:186-197 | the header that a refused DATA frame leaves in the write buffer, followed by any frame, is never decoded as a frame |
| `Wire.OversizePoisonsStream` | internal/tunnel/wire.go:186-197 | after a refused frame the reader gets exactly the frames before it, and then fails, whatever is written later |
| `Layout.EncodingIsLaidOut` | internal/tunnel/wire.go:172-209 | for every accepted frame the type byte, and the position, width and value of every field in its encoding |
| `Layout.RefusedIff` | internal/tunnel/wire.go:211-274 | the decoder refuses a type if and only if it is none of the nine, and a size if and only if a DATA frame's length exceeds the limit |
| `Layout.LongStringsDecode` | internal/tunnel/wire.go:317-328 | a string longer than the encoder takes is still decoded, up to what its two length bytes can say |
| `Layout.MostSignificantFirst` | internal/tunnel/wire.go:276-299 | numbers are written with the most significant byte first, at any width |
| `Messages.MessageRoundTrip` | internal/tunnel/wire.go:172-328 | whatever follows on the connection, a session's message that the encoder takes is read as that message, of that session, with its target |
| `Messages.FrameOfMessage` | internal/tunnel/wire.go:72-80 | a frame that means something to a session is the frame of that message: kinds and close directions are told apart |
| `Messages.EncodableMatchesCodec` | internal/tunnel/wire.go:172-209 | a frame of a session is accepted by the codec if and only if the sessions' rule allows it and its strings are within their limit |
| `BrokerSessions.TransmitFacts` | internal/broker/session.go:403-413 | sending a list of frames sends a prefix: all of it and still bound, or detached with a wake exactly if something is owed |
| `SessionObjects.Session.Detach` | internal/broker/session.go:105-122 | only the bound tunnel detaches; a wake exactly if a request is outstanding and something is undelivered |
| `SessionObjects.Session.SendToSidecar` | internal/broker/session.go:403-413 | the object's step is the transmission of one frame |
| `SessionObjects.Session.Bind` | internal/broker/session.go:92-98 | the object is bound to that tunnel and otherwise as before |
| `SessionObjects.Session.OnData` | internal/broker/session.go:246-307 | the object takes exactly the bytes beyond its mark, queues or writes them, counts and acknowledges them |
| `SessionObjects.Session.DialUpstream` | internal/broker/session.go:126-166 | a failed dial sends one close and ends the object; a completed one gives the queued bytes to upstream, acknowledges them and starts reading, or records and sends the close |
| `SessionObjects.Session.OnDownstreamAck` | internal/broker/session.go:313-321 | the object trims, and a drained buffer ends the request |
| `SessionObjects.Session.OnSidecarAttach` | internal/broker/session.go:326-351 | the object answers with ATTACH_OK, the missing bytes, and the close if they reach the end, as far as the tunnel takes them |
| `SessionObjects.Session.CloseUpstream` | internal/broker/session.go:371-398 | the object records the close once; if a tunnel is bound exactly one close goes to it, or it is unbound; it ends if both halves are closed and drained |
| `SessionObjects.Session.UpstreamEnds` | internal/broker/session.go:173-189 | the read loop stops, and the close is recorded and sent |
| `SessionObjects.Session.MaybeDestroy` | internal/broker/session.go:417-424 | the object ends exactly if both halves are closed and the buffer is drained |
| `SessionObjects.Session.Destroy` | internal/broker/session.go:427-444 | the object is dead and its watchdog disarmed |
| `SessionObjects.Session.Attach` | internal/broker/broker.go:246-247 | binding and answering together are the step of an attach |
| `SessionObjects.Session.OnSidecarClose` | internal/broker/session.go:354-367 | the object closes the upstream half for that direction only |
| `SessionObjects.Session.WatchdogExpires` | internal/broker/session.go:450-465 | the object wakes exactly if live, detached and with a request outstanding |
| `SessionObjects.Session.ProduceDownstream` | internal/broker/session.go:194-242 | whatever the other goroutines do at every wait, the loop appends its input in order, completely unless the session dies or the wait goes on, never overfills the buffer, and its whole effect is that of a run of single steps |
| `ClientObjects.ClientSession.DeliverDown` | internal/sidecar/session.go:104-136 | the object writes exactly the bytes beyond its mark to the agent and acknowledges them; a failed write ends it |
| `ClientObjects.ClientSession.OnAttachOk` | internal/sidecar/session.go:148-166 | the object drops what the broker has and replays the rest, if it can serve that offset |
| `ClientObjects.ClientSession.OnUpstreamAck` | internal/sidecar/session.go:95-100 | the object drops what the broker has acknowledged |
| `ClientObjects.ClientSession.AttachFrame` | internal/sidecar/session.go:140-144 | the frame asks from what the agent has received |
| `ClientObjects.ClientSession.OnClose` | internal/sidecar/session.go:169-182 | the object passes the close of that direction on, or closes altogether if the agent connection cannot be half-closed |
| `ClientObjects.ClientSession.CloseAll` | internal/sidecar/session.go:197-209 | the object is dead |
| `ClientObjects.ClientSession.CloseUp` | internal/sidecar/session.go:185-194 | the object sends the close once |
| `ClientObjects.ClientSession.WriteUp` | internal/sidecar/session.go:62-91 | whatever the other handlers do at every wait and after every send, the loop retains and sends the agent's bytes in order, completely unless the session dies or the wait goes on, and never overfills the buffer |
| `Tables.TunnelConn.Register` | internal/broker/tunnelconn.go:36-43 | the session is registered under its id |
| `Tables.TunnelConn.DetachAll` | internal/broker/tunnelconn.go:47-59 | in any order of the map every registered session takes one detach; one bound elsewhere by now is untouched |
| `Tables.Broker.HandleFrame` | internal/broker/broker.go:163-254 | a frame reaches the session of its key only, all others keep their state; in terms of the object's own history: ATTACH at d (OPEN at 0) is answered with what upstream was given, the bytes read from d on and the close, as far as the buffer holds them and the tunnel takes them; DATA extends what upstream was given, or the queue, by the bytes beyond the mark; ACK moves the base; a session it binds is registered with the tunnel; creation exactly for OPEN or ATTACH at 0, and the close for ATTACH beyond 0 of an unknown session |
| `Tables.HandleServes` | internal/broker/broker.go:163-191 | for every frame and any state with the session in the table, the state machine's step is that of HandleFrame on the object, written to the same tunnel |
| `Tables.HandleAdmits` | internal/broker/broker.go:194-245 | and without it: the same session is created, or none, and the same is written |
| `Safety.StepSafe` | internal/sidecar/session.go:62-166 | every step of agent, sidecar, network and broker keeps the invariant that frames in flight and buffers tell the truth |
| `Safety.ExactlyOnceInOrder` | internal/broker/session.go:246-307 | in every run, over any cuts, replays, stale frames and recreated sessions, every upstream got a prefix of the agent's bytes from byte 0, and byte k of the agent is byte k of what some incarnation read |
| `Introduction.StepOrdered` | internal/sidecar/client.go:119-164 | every step keeps it that a tunnel carries at most one OPEN or ATTACH, before which nothing comes back |
| `Delivery.StepFaithful` | internal/broker/session.go:326-398 | every step of every run keeps the downstream invariant: no gap, no close before the bytes its incarnation had read, and an undisturbed queue that ends where they end |
| `Told.StepTold` | internal/broker/session.go:371-398 | every step keeps it that a session bound to the newest tunnel, which has lost nothing, has its close and the count of bytes given to upstream with the sidecar or in flight |
| `Told.EverythingIsTold` | internal/broker/session.go:388-394 | in every run, for such a session: a recorded close that concerns the agent's stream was passed on or is in flight, and the acknowledgements in flight reach the end of what upstream was given |
| `Told.ReplyTells` | internal/broker/session.go:326-351 | the answer to an attach at the sidecar's offset starts with the bytes given to upstream and holds the close if and only if there is one and the offset is not beyond the end |
| `Told.ReadingTellsAll` | internal/sidecar/client.go:167-200 | from every such state, reading the tunnel to its end passes the close on; and unless bytes after a close end it, the agent has all that was read and the sidecar retains nothing that upstream has |
| `Told.CloseHalvesOrEnds` | internal/sidecar/session.go:169-182 | a close that the sidecar reads half-closes the agent's connection, or ends the session, and does nothing else |
| `Told.DialFailureIsReported` | internal/broker/session.go:126-135 | for every state, a failed dial adds exactly one close to the bound tunnel, and if the sidecar reads that tunnel, reading it passes the close on |
| `Told.AgentCloseArrives` | internal/sidecar/session.go:185-194 | for every state, the agent's first close adds exactly one close to a tunnel that is up, and the broker has closed that half when it has read the tunnel to its end |
| `UnheardClose.CloseGoesUnheard` | internal/broker/session.go:336-350 | a run in which a bound session has recorded its close, the agent has no more than it has read, and no close is in flight |
| `Incarnations.OneIncarnationSpeaks` | internal/broker/broker.go:221-245 | in runs that create sessions clean, all the agent's bytes come from one incarnation, as a prefix of what it read |
| `Incarnations.NewestCreationIsClean` | internal/broker/broker.go:221-245 | in every run a frame of the newest tunnel creates a session only while the agent has nothing and the session before it has read nothing |
| `Incarnations.PrefixIffCreatedClean` | internal/broker/broker.go:221-245 | over every run the agent's stream is at all times a prefix of the current incarnation's if and only if every session is created clean, which the broker could test: its buffer for the one before never held a byte |
| `Counterexamples.StaleOpenMixesIncarnations` | internal/broker/broker.go:194-219 | a run in which an OPEN left over on the first tunnel recreates a finished session and the agent reads one byte of each incarnation |
| `DeliveryResults.NewestAttachIsServedIff` | internal/tunnel/buffer.go:91-99 | in every run an introduction of the newest tunnel never asks for dropped bytes, and is served if and only if the agent has not received more than the current incarnation has read |
| `DeliveryResults.AttachIsServedIff` | internal/tunnel/buffer.go:91-99 | in every run any introduction, stale ones included, asks for no more than the agent has, and is served if and only if its bytes have been read and not acknowledged since |
| `LimitRuns.StaleOpenIsRefused` | internal/broker/broker.go:203-209 | a run in which an OPEN left over on an old tunnel asks for an acknowledged byte |
| `DeliveryResults.DownstreamContiguous` | internal/broker/session.go:212-226 | in every run the sidecar never sees a gap, and on an undisturbed newest tunnel the frames in flight end where the upstream's bytes end, or where the agent already stands |
| `DeliveryResults.EofNeverEarly` | internal/broker/session.go:336-350 | in every run, when the sidecar reads a close the agent has as many bytes as the incarnation that sent it had read when it recorded the close, and unless a failed write recorded it, all it ever reads |
| `DeliveryResults.LostSessionIsDrained` | internal/broker/broker.go:242-244 | in every run, when the broker answers with the close for a lost session, the agent has as many bytes as every incarnation read |
| `DeliveryResults.CloseIsFinal` | internal/sidecar/session.go:169-182 | after the close has been passed on, no run delivers another byte |
| `Counterexamples.FailedWriteEndsEarly` | internal/broker/session.go:292-296 | a run in which a failed write closes the stream before a byte that upstream sends later |
| `ReplayLimit.EarlyCloseLosesBytes` | internal/broker/session.go:292-296 | from every reachable state with a live session that has recorded the close, still reads from upstream and has room, some run passes the close on and reads any next byte, which no run then delivers; only a failed write leads there |
| `Upstream.StepUpright` | internal/sidecar/session.go:62-166 | every step keeps the upstream invariant: retained bytes, replay after attach, no gap |
| `Upstream.AttachOkIsServedIff` | internal/sidecar/session.go:148-161 | in every run an ATTACH_OK from any incarnation is served if and only if nothing beyond it was trimmed, and then with what the agent sent from there on; in the first incarnation it always is |
| `Upstream.UpstreamContiguous` | internal/sidecar/session.go:80-86 | in every run, from when the newest tunnel's attach exchange with the current incarnation was served until the tunnel or a write to upstream fails, the frames in flight take the broker to the end of the agent's bytes, and while it is not there one of them carries its next byte |
| `Chains.StepChains` | internal/sidecar/session.go:62-91 | every step keeps it that each DATA frame in flight goes on from the one before and the last ends where the agent's bytes end |
| `Chains.UpstreamContiguousIff` | internal/broker/session.go:273-289 | in every run, while the tunnel is up and has lost nothing, the frames in flight take the broker to the end of the agent's bytes if and only if none is missing or one of them carries its next byte, and otherwise it takes none of them |
| `LimitRuns.FailedWriteLeavesGap` | internal/broker/session.go:283-296 | a run in which a failed write is followed by a DATA frame beyond the mark on a tunnel that has lost nothing, and a reconnect that completes both directions |
| `LimitRuns.WriteBeforeAttachOkLeavesGap` | internal/sidecar/client.go:137-154 | a run without a failed write in which the agent's next DATA frame overtakes the replay, and a reconnect that completes both directions |
| `Upstream.WaitingBytesBounded` | internal/broker/session.go:254-270 | the queue before the dial has no cap of its own and yet never exceeds the sidecar's buffer in the first incarnation |
| `Recovery.ReconnectRecovers` | internal/broker/session.go:326-351 | in any incarnation, half-closed or not, one reconnect and loss-free exchange makes both sides equal, passes on a recorded close and empties both buffers, the broker's exactly if something was missing or it was empty |
| `Recovery.ReconnectDelivers` | internal/broker/session.go:326-351 | the agent's side alone, whatever has become of the upstream direction; nothing else in the session changes but the tunnel it is bound to |
| `Recovery.DialMakesRecoverable` | internal/broker/session.go:138-166 | completing the dial of a session with queued bytes leads to a state that a reconnect recovers |
| `ReplayLimit.EveryLiveSessionRecovers` | internal/sidecar/session.go:140-166 | from every reachable state with a live session in any incarnation, half-closed ones included, of which nothing needed was trimmed and each replay fits into a frame, a run exists that brings both sides up to date |
| `ReplayLimit.RecoversIff` | internal/tunnel/buffer.go:91-99 | when nothing more is on its way, some run completes both directions if and only if that is so |
| `ReplayLimit.DeliveredIffFits` | internal/broker/session.go:344-347 | from every reachable state with nothing on its way, the agent can be brought up to date if and only if it has a prefix, all of it if the close was passed on, and what it misses fits into one DATA frame |
| `ReplayLimit.RecreatesIff` | internal/broker/broker.go:221-241 | from every reachable state without a live session whose agent has nothing, and with its first byte in no frame, some run recreates the session and brings both sides up to date if and only if nothing was trimmed and all that the agent sent fits into one DATA frame |
| `ReplayLimit.LostOpenRecoversIff` | internal/broker/broker.go:228-235 | if the OPEN was lost, if and only if all that the agent sent fits into one DATA frame |
| `LimitRuns.NineReadsStrandAgent` | internal/broker/session.go:173-189 | a run of nine full reads while detached after which no run ever brings the agent up to date |
| `LimitRuns.LostAckKeepsBytes` | internal/broker/session.go:326-351 | a run whose reconnect leaves the broker's buffer non-empty |
| `Starving.UpstreamStarves` | internal/sidecar/session.go:150-163 | once the byte at some position is in no frame and trimmed, or at the head of more than fits into one frame, no run ever takes the current incarnation, or any that follows it, past that position; the same for the incarnations after the first n alone |
| `LimitRuns.RecreatedSessionStarves` | internal/sidecar/session.go:148-161 | a run that recreates a session from the newest tunnel which no run ever completes |
| `Oversize.OversizeReplayRefused` | internal/broker/session.go:344-347 | a replay above the limit is answered by ATTACH_OK at most, and the session is detached |
| `Oversize.OversizeStrandsAgent` | internal/broker/session.go:326-351 | from then on no run, over any number of reconnects, delivers another byte |
| `WakePolicy.WakeIff` | internal/broker/session.go:105-122 | a step wakes if and only if it leaves a detached session with a request outstanding and something undelivered that is news, or the watchdog fires on one |
| `WakePolicy.NoLostWake` | internal/broker/session.go:221-238 | over every sequence of events, a live detached session that owes something was woken for since it was last bound, or its watchdog is armed |
| `WakePolicy.WakeIsForPending` | internal/broker/session.go:388-394 | every wake is issued for a session that is detached with a request outstanding |
| `WakePolicy.NoSpuriousWake` | internal/broker/session.go:313-321 | from an ack that leaves the buffer empty until the next write to upstream no sequence of events wakes |
| `WakePolicy.EndsIff` | internal/broker/session.go:417-444 | a live session ends in a step if and only if its dial fails, or a half closes in that step and then both are closed and the buffer is drained; no acknowledgement ends it |
| `WakePolicy.DeadSessionWakes` | internal/broker/session.go:105-122 | a run in which a destroyed session still wakes |
| `Flags.FlagsRemember` | internal/broker/session.go:246-465 | over every history: the sidecar's and upstream's half are closed, the dial completed, upstream is read, a request is outstanding, the watchdog is armed, each if and only if an event that says so came and none after it took it back |
| `Flags.StaysBoundUnless` | internal/broker/session.go:105-122 | for every event: a session is unbound if and only if it is detached from that very tunnel or a write to it fails, which none does while the tunnel takes what there is to write; only an attach binds |
| `Flags.WakeSaysWhy` | internal/broker/session.go:221-238 | every wake gives the reason that its event calls for |
| `Binding.StepConsistent` | internal/broker/session.go:92-111 | every critical section keeps table, registers and bindings consistent |
| `Binding.BoundIsKnown` | internal/broker/tunnelconn.go:36-59 | under every interleaving a live session is the table's for its key and is known to the tunnel it is bound to |
| `Binding.DetachedForGood` | internal/broker/tunnelconn.go:47-59 | after a tunnel's detachAll no live session is ever bound to it again |
| `Binding.StaysBound` | internal/broker/session.go:105-111 | over any run a session stays bound to a tunnel until that tunnel's own detach or failed write, or a newer bind |
| `Binding.RemoveEvictsItself` | internal/broker/session.go:427-442 | the delete by key in the second half of destroy always removes the dying session itself |
| `Resumer.BackoffBounds` | internal/broker/resumer.go:71-91 | the waits grow by one half six times, stay below three seconds and are constant from the seventh on |
| `Resumer.ResumeLoop` | internal/broker/resumer.go:71-91 | the loop retries if and only if the call was aborted and the next wait ends within the deadline, waits the backoff in between, and makes at most eighteen calls |
| `Resumer.AtMostOneLoop` | internal/broker/resumer.go:49-64 | under every interleaving at most one loop runs per actor, the set in flight is the set of actors with one, and every wake leaves one running |
| `Resumer.ParseShowIff` | internal/broker/resumer.go:97-102 | parsing undoes printing if and only if the atespace has no slash |
| `Resumer.ParseAny` | internal/broker/resumer.go:97-102 | a name without a slash is kept whole under no atespace; any other is split at its first slash, and printing gives it back |
| `Activity.BusyThroughout` | internal/activityz/activityz.go:88-136 | over every history the counters are the calls in flight and started, and the timestamp is a moment since which some call was always in flight |
| `Activity.IdleThroughout` | internal/sidecar/ingress.go:93-118 | over every history the timestamp is a moment since which no request was in flight |
| `Activity.BusySinceIff` | internal/activityz/activityz.go:88-136 | over every history the timestamp is at or before a moment if and only if calls have been in flight since then without interruption, not even between two marks of one instant |
| `Activity.IdleSinceIff` | internal/sidecar/ingress.go:102-118 | over every history the timestamp is when the last request ended, exactly while none is in flight |
| `Activity.ReportsOldestIff` | internal/activitystatus/status.go:46-48 | the reported time is never less than the age of the oldest call, and is it if and only if the call that found none in flight has not ended or another began at the same instant |
| `Activity.ReportsOldestWhileOpenerRuns` | internal/activityz/activityz.go:88-111 | with a clock that tells beginnings apart, exactly while that call has not ended |
| `Activity.OverlapReportsEnded` | internal/activityz/activityz.go:88-111 | two overlapping calls for which it is not |
| `Activity.Tracker.BeforeTool` | internal/activityz/activityz.go:88-98 | the object's counters follow the history by one start |
| `Activity.Tracker.AfterTool` | internal/activityz/activityz.go:100-111 | the object's counters follow the history by one end |
| `Activity.Tracker.BeforeModel` | internal/activityz/activityz.go:113-123 | the same for model calls |
| `Activity.Tracker.AfterModel` | internal/activityz/activityz.go:125-136 | the same for model calls |
| `Activity.Tracker.BeforeRun` | internal/activityz/activityz.go:71-77 | the count and the time of the last activity follow the history by one start |
| `Activity.Tracker.AfterRun` | internal/activityz/activityz.go:79-86 | the count, never below none, and the time of the last activity follow the history by one end |
| `Activity.Tracker.Snapshot` | internal/activityz/activityz.go:139-159 | the reported blocked time is the longest stretch up to now with some call in flight at every moment; the idle time is that since the last mark of any kind in the history, exactly while nothing is in flight |
| `Activity.Ingress.IdleDuration` | internal/sidecar/ingress.go:93-100 | the reported idle time is that since the last request ended, a stretch with none in flight |
| `Activity.Ingress.EnterRequest` | internal/sidecar/ingress.go:102-107 | the object's counter follows the history by one start |
| `Activity.Ingress.ExitRequest` | internal/sidecar/ingress.go:109-118 | the object's counter follows the history by one end |
| `Suspender.Poll` | internal/sidecar/suspender.go:129-192 | one round of the loop decides and records what the policy says |
| `Suspender.Run` | internal/sidecar/suspender.go:116-194 | over any sequence of rounds the loop suspends in exactly the rounds the policy says |
| `SuspendRuns.SuspendsAreTheLoops` | internal/sidecar/suspender.go:116-194 | the suspends of every run are those of the poll loop over its rounds, no more and no fewer |
| `SuspendDue.SuspendsIffDue` | internal/sidecar/suspender.go:129-213 | in every run of agent, ingress and poller, a round suspends if and only if the histories call for it, and for that reason: a tool call (a model call, if those count) was in flight throughout the blocked time and another began since the last suspend of its kind, or neither and no request within the idle window nor a resume; and the cooldown is over |
| `SuspendRuns.OneSuspendPerCall` | internal/sidecar/suspender.go:162-190 | in every run of agent, ingress and poller, a new call has started between any two suspends for a blocked call of that kind |
| `SuspendRuns.NoMoreSuspendsThanCalls` | internal/sidecar/suspender.go:169-190 | so there are never more of them than calls started |
| `SuspendRuns.EverySuspendJustified` | internal/sidecar/suspender.go:139-158 | every idle suspend follows a whole idle window without a request in flight and lies more than one window after every detected resume; every blocked suspend follows the blocked time with a call in flight throughout; any two are a cooldown apart |
| `Replies.Pending.Register` | demos/adk-calc/internal/ingressbroker/broker.go:217-221 | the id gets a new empty channel |
| `Replies.Pending.Unregister` | demos/adk-calc/internal/ingressbroker/broker.go:223-227 | the id is gone, the others stay |
| `Replies.Pending.HandleReply` | demos/adk-calc/internal/ingressbroker/broker.go:193-215 | a reply reaches the one channel of its id, if empty, with its body, content type and status, or 200 without one, and nothing else |
| `Replies.RepliesReachTheirClients` | demos/adk-calc/internal/ingressbroker/broker.go:107-145 | under every interleaving the pending map holds exactly the ids of handlers that have not returned, and an answered client got the body, content type and status of a post under its own id |
| `Replies.PostAnswers` | demos/adk-calc/internal/ingressbroker/broker.go:193-215 | from every reachable state a post for a parked client without a reply can be sent and received, and answers it with what was posted |
| `Replies.EndingHasCause` | demos/adk-calc/internal/ingressbroker/broker.go:119-144 | in every run a client's ending comes from its own event: a received reply, a failed forward, its context or its timer |
| `Replies.EndingStays` | demos/adk-calc/internal/ingressbroker/broker.go:131-144 | a client has at most one ending: once answered, cancelled, failed or timed out it stays so |
| `Replies.ForwardToActor` | demos/adk-calc/internal/ingressbroker/broker.go:152-188 | at most five attempts; the first settled response decides, every earlier one was a network error or a server error; exact total of the waits |
| `Replies.Deliver` | internal/sidecar/ingress.go:202-223 | at most five posts, stopping at the first that gets any response; exact total of the waits |

## Left out

- `WaitingBytesBounded`: in the first incarnation, as the design promises it.
- `WriteUp`: no handler runs between appending a chunk and sending it, which is one step of the model.
- `ForwardToActor`: the response body and the request's headers are not modelled.
- Sessions share a tunnel, but the state machine follows one session; that frames of one session leave the others alone is in `Tables`.
- A lost CLOSE of the agent's half is not re-sent on reconnect, and a session is not reaped by the last acknowledgement alone; no such claim is made.
- The sidecar's tunnel client as an object: its connect, read and ping loops appear as steps of the state machine only.
- The gap between checking and counting in `onData`, and between dialling and counting the flushed bytes.
- Ping and pong timing, deadlines and how fast a dead tunnel is noticed; a cut may be noticed at any later step.
- Fairness of the condition variables and goroutine scheduling below the critical sections.
- Wrap-around of 64-bit offsets and counters.
- The HTTP front end of the sidecar, TLS, gRPC and the lifecycle API, checkpoint and restore, the allow-list for targets.
- Logging, debug endpoints, configuration defaults, command-line programs and the demo agent.
