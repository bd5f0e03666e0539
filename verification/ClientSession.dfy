/** The sidecar's half of one session (internal/sidecar/session.go): what each handler does to the
    session's state, the frame it hands to the tunnel client and the bytes it writes to the agent. */
module ClientSessions {
  import opened Streams
  import opened ReplayBuffers
  import opened Messages

  datatype Client = Client(upBuf: Window, downDelivered: nat, upClosed: bool, downClosed: bool, dead: bool)

  datatype Outcome = Outcome(c: Client, send: seq<Msg>, delivered: Bytes)

  function Quiet(c: Client): Outcome { Outcome(c, [], []) }

  function New(max: nat): Client { Client(Empty(max), 0, false, false, false) }

  /** One chunk of writeUp: retained first, then sent. */
  function WriteUp(c: Client, chunk: Bytes): Outcome {
    Outcome(c.(upBuf := c.upBuf.Add(chunk)), [Data(c.upBuf.End(), chunk)], [])
  }

  function OnUpstreamAck(c: Client, offset: nat): Client { c.(upBuf := c.upBuf.TrimTo(offset)) }

  /** New bytes go to the agent and are acknowledged; a failed agent write ends the session. */
  function DeliverDown(c: Client, offset: nat, p: Bytes, agentOk: bool): Outcome {
    if c.dead || !Accepts(c.downDelivered, offset, p) then Quiet(c)
    else if !agentOk then Quiet(c.(dead := true))
    else
      var added := Fresh(c.downDelivered, offset, p);
      var delivered := c.downDelivered + |added|;
      Outcome(c.(downDelivered := delivered), [Ack(delivered)], added)
  }

  function AttachFrame(c: Client): Msg { Attach(c.downDelivered) }

  /** The replay buffer still holds everything from `offset` on. */
  predicate Serves(c: Client, offset: nat) { c.upBuf.TrimTo(offset).Has(offset) }

  /** The broker has `offset` bytes: drop those and replay the rest, if the buffer can serve them. */
  function OnAttachOk(c: Client, offset: nat): Outcome {
    var w := c.upBuf.TrimTo(offset);
    var replay := if Serves(c, offset) then w.From(offset) else [];
    Outcome(c.(upBuf := w), if replay != [] then [Data(offset, replay)] else [], [])
  }

  /** An agent connection that cannot be half-closed is closed altogether. */
  function OnClose(c: Client, halfCloses: bool): Client { c.(downClosed := true, dead := c.dead || !halfCloses) }

  function CloseUp(c: Client): Outcome {
    if c.upClosed then Quiet(c) else Outcome(c.(upClosed := true), [Messages.CloseUp], [])
  }
}
