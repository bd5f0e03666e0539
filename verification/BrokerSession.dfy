/** The broker's half of one session (internal/broker/session.go): what each handler does to the
    session's state, which frames reach the bound tunnel, and which wakes it issues. */
module BrokerSessions {
  import opened Streams
  import opened ReplayBuffers
  import opened Messages
  import Wire

  /** `tconn` is the bound tunnel, `connected` says the dial has completed, `reading` that the
      upstream read loop is running and `watchdog` that the max-suspend timer is armed. */
  datatype Session = Session(
    tconn: Option<nat>,
    connected: bool,
    reading: bool,
    preConn: Bytes,
    downBuf: Window,
    upstreamWritten: nat,
    requestOutstanding: bool,
    upClosed: bool,
    downClosed: bool,
    dead: bool,
    watchdog: bool)

  datatype WakeReason = UndeliveredOnDetach | DataOnPending | CloseOnPending | MaxSuspend

  /** What one step does: the new state, the frames that the tunnel took, whether a tunnel write
      failed (which ends that direction of the tunnel), the wakes, and the bytes given to upstream. */
  datatype Effect = Effect(s: Session, sent: seq<Msg>, broke: bool, wakes: seq<WakeReason>, upstream: Bytes)

  function Quiet(s: Session): Effect { Effect(s, [], false, [], []) }

  function New(max: nat): Session {
    Session(None, false, false, [], Empty(max), 0, false, false, false, false, false)
  }

  function Bind(s: Session, tc: nat): Session { s.(tconn := Some(tc)) }

  /** A session has something its sidecar has not seen: unacknowledged bytes or a close. */
  predicate Undelivered(s: Session) { |s.downBuf.bytes| > 0 || s.downClosed }

  function Detach(s: Session, tc: nat): Effect {
    if s.tconn != Some(tc) then Quiet(s)
    else Effect(s.(tconn := None), [], false,
                if s.requestOutstanding && Undelivered(s) then [UndeliveredOnDetach] else [], [])
  }

  /** Successive sendToSidecar calls. `budget` is how many writes the tunnel takes before one fails;
      a failed write detaches the session, and the frames after it find no tunnel. */
  function Transmit(s: Session, msgs: seq<Msg>, budget: nat): Effect
    decreases |msgs|
  {
    if msgs == [] || s.tconn.None? then Quiet(s)
    else if budget == 0 || !Encodable(msgs[0]) then Detach(s, s.tconn.value).(broke := true)
    else
      var rest := Transmit(s, msgs[1..], budget - 1);
      rest.(sent := [msgs[0]] + rest.sent)
  }

  function MaybeDestroy(s: Session): Session {
    if s.upClosed && s.downClosed && |s.downBuf.bytes| == 0 && !s.dead
    then s.(dead := true, watchdog := false) else s
  }

  function CloseUpstream(s: Session, budget: nat): Effect {
    if s.downClosed then Quiet(s)
    else
      var s1 := s.(downClosed := true);
      if s.tconn.Some? then
        var e := Transmit(s1, [CloseDown], budget);
        e.(s := MaybeDestroy(e.s))
      else
        Effect(MaybeDestroy(s1), [], false, if s.requestOutstanding then [CloseOnPending] else [], [])
  }

  /** The dial succeeds: flush what was queued, acknowledge it, start the read loop. */
  function DialDone(s: Session, flushOk: bool, budget: nat): Effect {
    if s.dead then Quiet(s)
    else
      var s1 := s.(connected := true, preConn := [], watchdog := true);
      if s.preConn == [] then Quiet(s1.(reading := true))
      else if !flushOk then CloseUpstream(s1, budget)
      else
        var written := s.upstreamWritten + |s.preConn|;
        var s2 := s1.(reading := true, upstreamWritten := written, requestOutstanding := true);
        Transmit(s2, [Ack(written)], budget).(upstream := s.preConn)
  }

  function DialFailed(s: Session, budget: nat): Effect {
    var e := Transmit(s, [CloseDown], budget);
    e.(s := e.s.(dead := true, watchdog := false))
  }

  /** One chunk of produceDownstream. */
  function Produce(s: Session, chunk: Bytes, writeOk: bool): Effect {
    var s1 := s.(downBuf := s.downBuf.Add(chunk));
    var delivered := s.tconn.Some? && writeOk && |chunk| <= Wire.MAX_PAYLOAD;
    var s2 := if delivered then s1 else s1.(tconn := None);
    Effect(s2, if delivered then [Data(s.downBuf.End(), chunk)] else [], s.tconn.Some? && !delivered,
           if s2.tconn.None? && s.requestOutstanding then [DataOnPending] else [], [])
  }

  /** The offset up to which the session has taken the agent's bytes. */
  function Mark(s: Session): nat { s.upstreamWritten + |s.preConn| }

  function OnData(s: Session, offset: nat, p: Bytes, upstreamOk: bool, budget: nat): Effect {
    if s.dead then Quiet(s)
    else if !s.connected then
      if Accepts(Mark(s), offset, p) then Quiet(s.(preConn := s.preConn + Fresh(Mark(s), offset, p))) else Quiet(s)
    else if !Accepts(s.upstreamWritten, offset, p) then Quiet(s)
    else if !upstreamOk then CloseUpstream(s, budget)
    else
      var added := Fresh(s.upstreamWritten, offset, p);
      var written := s.upstreamWritten + |added|;
      var s1 := s.(upstreamWritten := written, requestOutstanding := true, watchdog := true);
      Transmit(s1, [Ack(written)], budget).(upstream := added)
  }

  function OnAck(s: Session, offset: nat): Session {
    var s1 := s.(downBuf := s.downBuf.TrimTo(offset));
    if |s1.downBuf.bytes| == 0 then s1.(requestOutstanding := false) else s1
  }

  /** What is replayed for an ATTACH at `delivered`: nothing if the buffer cannot serve that offset. */
  function Replay(s: Session, delivered: nat): Bytes {
    if s.downBuf.Has(delivered) then s.downBuf.From(delivered) else []
  }

  function AttachReply(s: Session, delivered: nat): seq<Msg> {
    var replay := Replay(s, delivered);
    [AttachOk(s.upstreamWritten)]
    + (if replay != [] then [Data(delivered, replay)] else [])
    + (if s.downClosed && s.downBuf.End() == delivered + |replay| then [CloseDown] else [])
  }

  function OnAttach(s: Session, tc: nat, delivered: nat, budget: nat): Effect {
    Transmit(Bind(s, tc), AttachReply(s, delivered), budget)
  }

  function OnSidecarClose(s: Session): Session { MaybeDestroy(s.(upClosed := true)) }

  /** The read loop ends and the close is recorded. */
  function UpstreamEof(s: Session, budget: nat): Effect { CloseUpstream(s.(reading := false), budget) }

  function WatchdogFires(s: Session): Effect {
    Effect(s.(watchdog := false), [], false,
           if !s.dead && s.requestOutstanding && s.tconn.None? then [MaxSuspend] else [], [])
  }

  /** Transmitting sends a prefix of the frames and changes nothing in the session but the binding:
      all of them and still bound, or the tunnel write failed and the session is detached. */
  lemma {:induction false} TransmitFacts(s: Session, msgs: seq<Msg>, budget: nat)
    ensures var e := Transmit(s, msgs, budget);
            && e.sent <= msgs && |e.sent| <= budget
            && e.upstream == []
            && (e.broke ==> s.tconn.Some? && e.s == s.(tconn := None) && |e.sent| < |msgs|)
            && (!e.broke ==> e.s == s && e.wakes == [] && (s.tconn.Some? ==> e.sent == msgs))
            && (s.tconn.None? ==> e == Quiet(s))
            && (e.wakes == [] || e.wakes == [UndeliveredOnDetach])
            && (forall m :: m in e.sent ==> Encodable(m))
    ensures Transmit(s, msgs, budget).wakes != [] ==>
              Transmit(s, msgs, budget).broke && s.requestOutstanding && Undelivered(s)
    ensures Transmit(s, msgs, budget).broke && s.requestOutstanding && Undelivered(s) ==>
              Transmit(s, msgs, budget).wakes != []
    ensures s.tconn.Some? && |msgs| <= budget && (forall m :: m in msgs ==> Encodable(m)) ==>
              !Transmit(s, msgs, budget).broke
    decreases |msgs|
  {
    if msgs != [] && s.tconn.Some? && budget > 0 && Encodable(msgs[0]) {
      TransmitFacts(s, msgs[1..], budget - 1);
      assert msgs == [msgs[0]] + msgs[1..];
    }
  }

  lemma TransmitNothing(s: Session, budget: nat)
    ensures Transmit(s, [], budget) == Quiet(s)
  {
  }

  predicate Takes(s: Session, m: Msg, budget: nat) { s.tconn.Some? && budget > 0 && Encodable(m) }

  lemma TransmitFirst(s: Session, m: Msg, rest: seq<Msg>, budget: nat)
    ensures Transmit(s, [m] + rest, budget) ==
            if Takes(s, m, budget) then Transmit(s, rest, budget - 1).(sent := [m] + Transmit(s, rest, budget - 1).sent)
            else if s.tconn.Some? then Detach(s, s.tconn.value).(broke := true)
            else Quiet(s)
  {
  }

  /** Sending in two goes is sending in one. */
  lemma {:induction false} TransmitThen(s: Session, msgs: seq<Msg>, more: seq<Msg>, budget: nat)
    ensures var e1 := Transmit(s, msgs, budget);
            var e2 := Transmit(e1.s, more, if budget < |msgs| then 0 else budget - |msgs|);
            Transmit(s, msgs + more, budget) ==
                Effect(e2.s, e1.sent + e2.sent, e1.broke || e2.broke, e1.wakes + e2.wakes, [])
    decreases |msgs|
  {
    hide Transmit;
    TransmitNothing(s, budget);
    TransmitFacts(s, more, budget);
    if msgs == [] {
      assert msgs + more == more;
    } else {
      var m, rest := msgs[0], msgs[1..];
      assert msgs == [m] + rest && msgs + more == [m] + (rest + more);
      TransmitFirst(s, m, rest, budget);
      TransmitFirst(s, m, rest + more, budget);
      if Takes(s, m, budget) {
        TransmitThen(s, rest, more, budget - 1);
      } else {
        TransmitFacts(s.(tconn := None), more, if budget < |msgs| then 0 else budget - |msgs|);
      }
    }
  }

  /** Apart from attaching, a handler keeps the binding or loses it. */
  lemma CloseBinding(s: Session, budget: nat)
    ensures var t := CloseUpstream(s, budget).s.tconn; t == s.tconn || t == None
  {
  }

  lemma OnDataBinding(s: Session, offset: nat, p: Bytes, upstreamOk: bool, budget: nat)
    ensures var t := OnData(s, offset, p, upstreamOk, budget).s.tconn; t == s.tconn || t == None
  {
    CloseBinding(s, budget);
    if Accepts(s.upstreamWritten, offset, p) {
      var written := s.upstreamWritten + |Fresh(s.upstreamWritten, offset, p)|;
      TransmitFacts(s.(upstreamWritten := written, requestOutstanding := true, watchdog := true), [Ack(written)],
                    budget);
    }
  }

  lemma DialDoneBinding(s: Session, flushOk: bool, budget: nat)
    ensures var t := DialDone(s, flushOk, budget).s.tconn; t == s.tconn || t == None
  {
    var s1 := s.(connected := true, preConn := [], watchdog := true);
    CloseBinding(s1, budget);
    var written := s.upstreamWritten + |s.preConn|;
    TransmitFacts(s1.(reading := true, upstreamWritten := written, requestOutstanding := true), [Ack(written)], budget);
  }
}
