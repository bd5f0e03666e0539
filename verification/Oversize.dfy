/** Replays larger than one DATA frame. The replay after a reconnect is sent as a single frame, which
    the encoder refuses beyond the payload limit; the session then never gets going again. */
module Oversize {
  import opened Streams
  import opened ReplayBuffers
  import opened Messages
  import opened Protocol
  import opened Safety
  import opened Introduction
  import opened Delivery
  import Wire
  import C = ClientSessions
  import B = BrokerSessions

  /** No DATA frame in the queue carries a byte beyond the first `d`. */
  ghost predicate NothingNew(q: seq<Item>, d: nat) {
    forall k :: 0 <= k < |q| && q[k].msg.Data? ==> q[k].msg.offset + |q[k].msg.payload| <= d
  }

  /** More than one frame's worth is missing at the agent, and nothing is on its way. */
  ghost predicate Stuck(s: State) {
    && Faithful(s)
    && s.incs != [] && |s.Cur().sent| > |s.agentGot| + Wire.MAX_PAYLOAD
    && (s.tunnels != [] ==> NothingNew(s.Newest().down, |s.agentGot|) && (BoundToNewest(s) ==> s.Newest().downCut))
  }

  /** Undelivered bytes keep the session alive and in the table. */
  lemma StuckIsLive(s: State)
    requires Stuck(s)
    ensures s.inTable && !s.Cur().s.dead && s.Cur().s.connected && s.started
  {
  }

  /** What a step must keep for the session to stay stuck. */
  ghost predicate Still(s: State, s': State) {
    && s'.incs != [] && s.incs != [] && |s.Cur().sent| <= |s'.Cur().sent|
    && s'.agentGot == s.agentGot
    && (s'.tunnels != [] ==> NothingNew(s'.Newest().down, |s.agentGot|) && (BoundToNewest(s') ==> s'.Newest().downCut))
  }

  /** A step of the session that binds it to no new tunnel. */
  lemma ActStill(s: State, e: B.Effect, at: Option<nat>, read: Bytes)
    requires Stuck(s)
    requires at.Some? ==> at.value < |s.tunnels|
    requires at == Some(|s.tunnels| - 1) ==> BoundToNewest(s)
    requires e.s.tconn == Some(|s.tunnels| - 1) ==> BoundToNewest(s)
    ensures Still(s, Act(s, e, at, read))
  {
    hide Act, Faithful;
    ActChanges(s, e, at, read);
  }

  /** The ATTACH that reaches the broker on the newest tunnel is answered by ATTACH_OK at most: the
      replay is refused and the session detached. */
  lemma OversizeReplayRefused(i: Incarnation, tc: nat, d: nat, budget: nat, a: Bytes)
    requires IncarnationTrue(i, a, d) && |i.sent| > d + Wire.MAX_PAYLOAD
    ensures var e := B.OnAttach(i.s, tc, d, budget);
            && e.broke && e.s.tconn == None
            && (e.sent == [] || e.sent == [AttachOk(i.s.upstreamWritten)])
  {
    FromIsTail(i.s.downBuf, i.sent, d);
    var reply := B.AttachReply(i.s, d);
    assert reply[0] == AttachOk(i.s.upstreamWritten);
    assert reply[1].Data? && !Encodable(reply[1]);
    var b := B.Bind(i.s, tc);
    if budget > 0 {
      assert reply[1..][0] == reply[1];
      assert B.Transmit(b, reply[1..], budget - 1).sent == [];
      assert [reply[0]] + [] == [AttachOk(i.s.upstreamWritten)];
    }
  }

  lemma AttachStill(s: State, e: nat, d: nat, budget: nat)
    requires Stuck(s) && e < |s.tunnels|
    requires e == |s.tunnels| - 1 ==> d == |s.agentGot|
    ensures Still(s, Act(s, B.OnAttach(s.Cur().s, e, d, budget), Some(e), []))
  {
    hide Act, Faithful, B.OnAttach;
    StuckIsLive(s);
    var eff := B.OnAttach(s.Cur().s, e, d, budget);
    ActChanges(s, eff, Some(e), []);
    if e == |s.tunnels| - 1 {
      FaithfulCurrent(s);
      OversizeReplayRefused(s.Cur(), e, d, budget, s.agentSent);
    } else {
      AttachBinding(s.Cur().s, e, d, budget);
    }
  }

  lemma AttachBinding(b: B.Session, e: nat, d: nat, budget: nat)
    ensures var t := B.OnAttach(b, e, d, budget).s.tconn; t == Some(e) || t == None
  {
    B.TransmitFacts(B.Bind(b, e), B.AttachReply(b, d), budget);
  }

  lemma FaithfulCurrent(s: State)
    requires Faithful(s) && s.incs != []
    ensures IncarnationTrue(s.Cur(), s.agentSent, |s.agentGot|)
  {
  }

  lemma MarkFailureStuck(s: State, failed: bool)
    requires Stuck(s)
    ensures Stuck(MarkFailure(s, failed)) && MarkFailure(s, failed).Cur().s == s.Cur().s
    ensures MarkFailure(s, failed).agentGot == s.agentGot && |MarkFailure(s, failed).Cur().sent| == |s.Cur().sent|
  {
    hide Faithful;
    MarkFailureFaithful(s, failed);
  }

  lemma HandleStill(s: State, e: nat, m: Msg, upstreamOk: bool, budget: nat)
    requires Stuck(s) && e < |s.tunnels|
    requires e == |s.tunnels| - 1 ==> IntroAt(m, |s.agentGot|)
    requires Bound(s)
    ensures Still(s, Handle(s, e, m, upstreamOk, budget))
  {
    hide Act, Faithful, B.OnAttach, B.OnData, MarkFailure;
    StuckIsLive(s);
    match m {
      case Open => AttachStill(s, e, 0, budget);
      case Attach(d) => AttachStill(s, e, d, budget);
      case Data(offset, p) =>
        var b := s.Cur().s;
        var failed := WritesUpstream(b, offset, p) && !upstreamOk;
        MarkFailureStuck(s, failed);
        MarkFailureShape(s, failed);
        B.OnDataBinding(b, offset, p, upstreamOk, budget);
        ActStill(MarkFailure(s, failed), B.OnData(b, offset, p, upstreamOk, budget), b.tconn, []);
      case Ack(offset) => ActStill(s, B.Quiet(B.OnAck(s.Cur().s, offset)), None, []);
      case CloseUp => ActStill(s, B.Quiet(B.OnSidecarClose(s.Cur().s)), None, []);
      case _ =>
    }
  }

  lemma MarkFailureShape(s: State, failed: bool)
    requires s.incs != []
    ensures var s' := MarkFailure(s, failed); s'.tunnels == s.tunnels && s'.Cur().s == s.Cur().s && s'.incs != []
  {
  }

  lemma BrokerReadStill(s: State, e: nat, upstreamOk: bool, budget: nat)
    requires Stuck(s)
    requires Enabled(s, BrokerReads(e, upstreamOk, budget))
    ensures Still(s, BrokerRead(s, e, upstreamOk, budget))
  {
    hide Handle, Faithful;
    PopUpFaithful(s, e);
    IntroPosition(s, e);
    HandleStill(PopUp(s, e), e, s.tunnels[e].up[0], upstreamOk, budget);
  }

  lemma IntroPosition(s: State, e: nat)
    requires Faithful(s) && e < |s.tunnels| && s.tunnels[e].up != []
    ensures e == |s.tunnels| - 1 ==> IntroAt(s.tunnels[e].up[0], |s.agentGot|)
  {
  }

  lemma PopStill(s: State)
    requires Stuck(s) && s.tunnels != [] && s.Newest().down != []
    ensures var item, s1 := s.Newest().down[0], PopDown(s);
            && Still(s, s1) && s1 == s.(tunnels := s1.tunnels) && s1.tunnels != []
            && (item.msg.Data? ==> item.msg.offset + |item.msg.payload| <= s.c.downDelivered)
  {
    hide Faithful;
    StuckPosition(s);
  }

  lemma StuckPosition(s: State)
    requires Stuck(s)
    ensures s.c.downDelivered == |s.agentGot|
  {
  }

  /** A duplicate brings the agent nothing. */
  lemma DuplicateStill(c: C.Client, offset: nat, p: Bytes, agentOk: bool)
    requires offset + |p| <= c.downDelivered
    ensures C.DeliverDown(c, offset, p, agentOk).delivered == []
  {
  }

  /** What the sidecar does with a frame, if it brings the agent nothing, concerns its own half and what it
      sends. */
  ghost predicate OnlySends(s: State, s': State) {
    && s' == s.(c := s'.c, src := s'.src, synced := s'.synced, tunnels := s'.tunnels)
    && |s'.tunnels| == |s.tunnels|
    && (s.tunnels != [] ==> s'.Newest() == s.Newest().(up := s'.Newest().up, upCut := s'.Newest().upCut))
  }

  lemma SendOnlySends(s: State, c: C.Client, src: seq<Option<nat>>, synced: Option<nat>, msgs: seq<Msg>)
    requires s.linked ==> s.tunnels != []
    ensures OnlySends(s, SendUp(s.(c := c, src := src, synced := synced), msgs))
  {
    hide SendUp;
    SendUpChanges(s.(c := c, src := src, synced := synced), msgs);
  }

  lemma DispatchOnlySends(s: State, item: Item, agentOk: bool)
    requires (s.linked ==> s.tunnels != []) && s.c.downDelivered == |s.agentGot|
    requires item.msg.Data? ==> item.msg.offset + |item.msg.payload| <= |s.agentGot|
    ensures OnlySends(s, Dispatch(s, item, agentOk))
  {
    hide SendUp, OnlySends, C.OnAttachOk, C.DeliverDown, C.Serves, C.OnClose, Times;
    if s.c.dead {
      OnlySendsNothing(s, s.c);
    } else {
      match item.msg
      case AttachOk(offset) =>
        var o := C.OnAttachOk(s.c, offset);
        SendOnlySends(s, o.c, s.src, if C.Serves(s.c, offset) then item.inc else None, o.send);
      case Data(offset, p) =>
        var o := C.DeliverDown(s.c, offset, p, agentOk && !s.c.downClosed);
        DuplicateStill(s.c, offset, p, agentOk && !s.c.downClosed);
        assert s.agentGot + [] == s.agentGot;
        SendOnlySends(s, o.c, s.src + Times(|o.delivered|, item.inc), s.synced, o.send);
      case Ack(offset) => OnlySendsNothing(s, C.OnUpstreamAck(s.c, offset));
      case CloseDown => OnlySendsNothing(s, C.OnClose(s.c, agentOk));
      case _ => OnlySendsNothing(s, s.c);
    }
  }

  lemma OnlySendsNothing(s: State, c: C.Client)
    ensures OnlySends(s, s.(c := c))
  {
  }

  lemma ClientReadStill(s: State, agentOk: bool)
    requires Stuck(s)
    requires Enabled(s, ClientReads(agentOk))
    ensures Still(s, ClientRead(s, agentOk))
  {
    hide Faithful, Dispatch, PopDown, NothingNew, Stuck;
    PopStill(s);
    StuckPosition(s);
    DispatchOnlySends(PopDown(s), s.Newest().down[0], agentOk);
  }

  lemma SendStill(s: State, x: State, msgs: seq<Msg>)
    requires Stuck(s) && x == s.(started := x.started, synced := x.synced, c := x.c, agentSent := x.agentSent,
                                 attachDue := x.attachDue)
    requires x.linked ==> x.tunnels != []
    ensures Still(s, SendUp(x, msgs))
  {
    hide Faithful, SendUp;
    SendUpChanges(x, msgs);
  }

  lemma SidecarStill(s: State, chunk: Bytes)
    requires Stuck(s) && Bound(s)
    ensures Enabled(s, AgentWrites(chunk)) ==> Still(s, Wrote(s, chunk))
    ensures Enabled(s, AgentCloses) ==> Still(s, FinishedWriting(s))
    ensures Enabled(s, SendAttach) ==> Still(s, SentAttach(s))
  {
    hide Faithful, SendUp, Still;
    SendStill(s, s.(c := C.WriteUp(s.c, chunk).c, agentSent := s.agentSent + chunk), C.WriteUp(s.c, chunk).send);
    SendStill(s, s.(c := C.CloseUp(s.c).c), C.CloseUp(s.c).send);
    SendStill(s, s.(attachDue := false), [C.AttachFrame(s.c)]);
  }

  lemma NetworkStill(s: State, e: nat, keep: nat)
    requires Stuck(s) && Bound(s)
    ensures Enabled(s, CutUp(e, keep)) ==> Still(s, LostUp(s, e, keep))
    ensures Enabled(s, CutDown(e, keep)) ==> Still(s, LostDown(s, e, keep))
    ensures Enabled(s, Connect) ==> Still(s, Connected(s))
  {
    hide Faithful;
  }

  lemma DroppedStill(s: State, e: nat)
    requires Stuck(s) && Enabled(s, BrokerDrops(e))
    ensures Still(s, Dropped(s, e))
  {
    hide Faithful, Act;
    ShutFaithful(s, e);
    ActStill(ShutTunnel(s, e), B.Detach(s.Cur().s, e), None, []);
  }

  lemma ProducedStill(s: State, chunk: Bytes, writeOk: bool)
    requires Stuck(s) && Enabled(s, UpstreamSends(chunk, writeOk))
    ensures Still(s, Produced(s, chunk, writeOk))
  {
    hide Faithful, Act, Still;
    ActStill(s, B.Produce(s.Cur().s, chunk, writeOk), s.Cur().s.tconn, chunk);
  }

  lemma EndedStill(s: State, budget: nat)
    requires Stuck(s) && Enabled(s, UpstreamEof(budget))
    ensures Still(s, Ended(s, budget))
  {
    hide Faithful, Act, B.CloseUpstream, Still;
    B.CloseBinding(s.Cur().s.(reading := false), budget);
    ActStill(s, B.UpstreamEof(s.Cur().s, budget), s.Cur().s.tconn, []);
  }

  lemma FiredStill(s: State)
    requires Stuck(s) && Enabled(s, WatchdogFires)
    ensures Still(s, Fired(s))
  {
    hide Faithful, Act, Still;
    ActStill(s, B.WatchdogFires(s.Cur().s), None, []);
  }

  lemma StepStill(s: State, a: Action)
    requires Stuck(s) && Enabled(s, a)
    ensures Still(s, Step(s, a))
  {
    hide Started, Wrote, FinishedWriting, Connected, SentAttach, ClientRead, LostUp, LostDown, BrokerRead;
    hide Dropped, Dialled, DialRefused, Produced, Ended, Fired, Faithful;
    StuckIsLive(s);
    match a {
      case AgentWrites(chunk) => SidecarStill(s, chunk);
      case AgentCloses => SidecarStill(s, []);
      case Connect => NetworkStill(s, 0, 0);
      case SendAttach => SidecarStill(s, []);
      case Disconnect =>
      case ClientReads(agentOk) => ClientReadStill(s, agentOk);
      case CutUp(e, keep) => NetworkStill(s, e, keep);
      case CutDown(e, keep) => NetworkStill(s, e, keep);
      case BrokerReads(e, upstreamOk, budget) => BrokerReadStill(s, e, upstreamOk, budget);
      case BrokerDrops(e) => DroppedStill(s, e);
      case UpstreamSends(chunk, writeOk) => ProducedStill(s, chunk, writeOk);
      case UpstreamEof(budget) => EndedStill(s, budget);
      case WatchdogFires => FiredStill(s);
      case _ =>
    }
  }

  /** In every run from such a state, over any number of reconnects, the agent never receives another
      byte. */
  lemma {:induction false} OversizeStrandsAgent(s: State, run: seq<Action>)
    requires Stuck(s)
    requires Legal(s, run)
    ensures Exec(s, run).agentGot == s.agentGot
    decreases |run|
  {
    hide Step, Enabled, Faithful, BoundToNewest;
    if run != [] {
      StepStill(s, run[0]);
      StepFaithful(s, run[0]);
      OversizeStrandsAgent(Step(s, run[0]), run[1..]);
    }
  }
}
