/** What the downstream invariants mean, in every run: which replays are served, no gaps, and no early
    end of stream. */
module DeliveryResults {
  import opened Streams
  import opened Messages
  import opened Protocol
  import opened Safety
  import opened Introduction
  import opened Delivery
  import B = BrokerSessions
  import C = ClientSessions

  ghost predicate Reachable(s: State, upMax: nat, downMax: nat, run: seq<Action>) {
    Legal(Init(upMax, downMax), run) && s == Exec(Init(upMax, downMax), run)
  }

  lemma ReachableFaithful(s: State, upMax: nat, downMax: nat, run: seq<Action>)
    requires Reachable(s, upMax, downMax, run)
    ensures Faithful(s)
  {
    InitFaithful(upMax, downMax);
    RunFaithful(Init(upMax, downMax), run);
  }

  /** The offset that an introduction asks to be served from; a repeated OPEN attaches at 0. */
  function AsksFrom(m: Msg): nat
    requires IsIntro(m)
  {
    if m.Attach? then m.offset else 0
  }

  /** An introduction on the sidecar's newest tunnel never asks the broker for bytes it has dropped, and
      it is served if and only if the agent has not received more than the current incarnation has read,
      as it may have once a stale frame has recreated the session. */
  lemma NewestAttachIsServedIff(s: State, upMax: nat, downMax: nat, run: seq<Action>, k: nat)
    requires Reachable(s, upMax, downMax, run)
    requires s.tunnels != [] && k < |s.Newest().up| && IsIntro(s.Newest().up[k])
    requires s.inTable
    ensures s.incs != [] && s.Cur().s.downBuf.base <= AsksFrom(s.Newest().up[k]) == |s.agentGot|
    ensures s.Cur().s.downBuf.Has(AsksFrom(s.Newest().up[k])) <==> |s.agentGot| <= |s.Cur().sent|
  {
    ReachableFaithful(s, upMax, downMax, run);
    CurrentTrue(s);
    assert IsIntro(s.Newest().up[k]);
  }

  /** Any introduction, stale ones included, asks for no more than the agent has received, and is served
      if and only if its bytes have not been acknowledged since and have been read at all; the second
      needs no test while the agent has received no more than the current incarnation has read. */
  lemma AttachIsServedIff(s: State, upMax: nat, downMax: nat, run: seq<Action>, e: nat, k: nat)
    requires Reachable(s, upMax, downMax, run)
    requires e < |s.tunnels| && k < |s.tunnels[e].up| && IsIntro(s.tunnels[e].up[k])
    requires s.inTable
    ensures s.incs != []
    ensures var d, b := AsksFrom(s.tunnels[e].up[k]), s.Cur().s.downBuf;
            && d <= |s.agentGot|
            && (b.Has(d) <==> b.base <= d <= |s.Cur().sent|)
            && (|s.agentGot| <= |s.Cur().sent| ==> (b.Has(d) <==> b.base <= d))
  {
    ReachableFaithful(s, upMax, downMax, run);
    CurrentTrue(s);
    assert TunnelTrue(s.tunnels[e], s.agentSent, |s.agentGot|, s.incs);
    assert UpTrue(s.tunnels[e].up[k], s.agentSent, |s.agentGot|);
  }

  /** The sidecar never sees a gap, and while the session is bound to the newest tunnel and nothing was
      lost, the frames in flight end where the upstream's bytes end, or where the agent already stands. */
  lemma DownstreamContiguous(s: State, upMax: nat, downMax: nat, run: seq<Action>)
    requires Reachable(s, upMax, downMax, run)
    requires s.tunnels != [] && !s.c.dead
    ensures s.Newest().down != [] && s.Newest().down[0].msg.Data? ==> s.Newest().down[0].msg.offset <= |s.agentGot|
    ensures BoundToNewest(s) && !s.Newest().downCut ==>
              Reach(s.Newest().down, |s.agentGot|) == Max(|s.agentGot|, |s.Cur().sent|)
  {
    ReachableFaithful(s, upMax, downMax, run);
  }

  /** When the sidecar reads a close, the agent has as many bytes as the incarnation that sent it had read
      when it recorded the close; unless a failed write to upstream recorded it, that is as many as it
      ever reads, and if all the agent's bytes come from that incarnation, exactly those. */
  lemma EofNeverEarly(s: State, upMax: nat, downMax: nat, run: seq<Action>, i: nat)
    requires Reachable(s, upMax, downMax, run)
    requires Enabled(s, ClientReads(true)) && !s.c.dead
    requires s.Newest().down[0] == Item(Some(i), CloseDown)
    ensures i < |s.incs| && Over(s.incs[i]) && (s.incs[i].s.downClosed ==> s.incs[i].closedAt <= |s.agentGot|)
    ensures !s.incs[i].cutShort ==>
              && !s.incs[i].s.reading && |s.incs[i].sent| <= |s.agentGot|
              && ((forall k :: 0 <= k < |s.src| ==> s.src[k] == Some(i)) ==> s.agentGot == s.incs[i].sent)
  {
    hide Safe, Ordered, Flowing;
    ReachableFaithful(s, upMax, downMax, run);
    PopDownFacts(s);
    FrontClose(s, i);
    TrueOf(s, i);
    if forall k :: 0 <= k < |s.src| ==> s.src[k] == Some(i) { OneSource(s, i); }
  }

  lemma TrueOf(s: State, i: nat)
    requires Safe(s) && i < |s.incs|
    ensures IncarnationTrue(s.incs[i], s.agentSent, |s.agentGot|)
  {
  }

  lemma FrontClose(s: State, i: nat)
    requires Flowing(s) && !s.c.dead && s.tunnels != [] && s.Newest().down != []
             && s.Newest().down[0] == Item(Some(i), CloseDown)
    ensures i < |s.incs| && CloseMark(s.incs[i]) <= |s.agentGot|
  {
    assert Fits(s.Newest().down[0], |s.agentGot|, Marks(s.incs));
  }

  lemma OneSource(s: State, i: nat)
    requires Safe(s) && i < |s.incs| && (forall k :: 0 <= k < |s.src| ==> s.src[k] == Some(i))
    ensures s.agentGot <= s.incs[i].sent
  {
    forall k | 0 <= k < |s.agentGot| ensures k < |s.incs[i].sent| && s.agentGot[k] == s.incs[i].sent[k] {
      assert ByteTrue(s.agentGot[k], k, s.src[k], s.incs);
    }
    if s.agentGot != [] {
      var last := |s.agentGot| - 1;
      assert ByteTrue(s.agentGot[last], last, s.src[last], s.incs);
    }
  }

  /** The close for a session that the broker does not hold is not early either: whenever the broker
      answers an ATTACH with it, every incarnation so far is dead and the agent has as many bytes as each
      of them read. */
  lemma LostSessionIsDrained(s: State, upMax: nat, downMax: nat, run: seq<Action>, e: nat)
    requires Reachable(s, upMax, downMax, run)
    requires Enabled(s, BrokerReads(e, true, 0)) && !s.inTable
    requires s.tunnels[e].up[0].Attach? && s.tunnels[e].up[0].offset > 0
    ensures Step(s, BrokerReads(e, true, 0)).tunnels[e].down ==
            s.tunnels[e].down + if s.tunnels[e].downCut then [] else [Item(None, CloseDown)]
    ensures forall i :: 0 <= i < |s.incs| ==> s.incs[i].s.dead && |s.incs[i].sent| <= |s.agentGot|
  {
    ReachableFaithful(s, upMax, downMax, run);
    forall i | 0 <= i < |s.incs| ensures s.incs[i].s.dead && |s.incs[i].sent| <= |s.agentGot| {
      assert IncarnationTrue(s.incs[i], s.agentSent, |s.agentGot|);
    }
  }

  lemma ActKeepsSidecar(s: State, e: B.Effect, at: Option<nat>)
    requires s.incs != []
    requires at.Some? ==> at.value < |s.tunnels|
    ensures var s' := Act(s, e, at, []); s'.c == s.c && s'.agentGot == s.agentGot && |s'.incs| == |s.incs|
  {
    hide Tag, AfterEffect, PushDown;
  }

  lemma HandleKeepsSidecar(s: State, e: nat, m: Msg, upstreamOk: bool, budget: nat)
    requires Bound(s) && e < |s.tunnels|
    ensures var s' := Handle(s, e, m, upstreamOk, budget);
            && s'.c == s.c && s'.agentGot == s.agentGot
            && |s'.incs| == |s.incs| + if !s.inTable && (m.Open? || m == Attach(0)) then 1 else 0
  {
    hide Act, PushDown, B.OnAttach, B.OnData, B.OnAck, B.OnSidecarClose, B.Bind, B.New;
    var s1 := if s.inTable then s else Create(s, e);
    var b := s1.Cur().s;
    match m
    case Open => ActKeepsSidecar(s1, B.OnAttach(b, e, 0, budget), Some(e));
    case Attach(d) => ActKeepsSidecar(s1, B.OnAttach(b, e, if s.inTable then d else 0, budget), Some(e));
    case Data(offset, p) =>
      if s.inTable {
        ActKeepsSidecar(MarkFailure(s, WritesUpstream(b, offset, p) && !upstreamOk),
                        B.OnData(b, offset, p, upstreamOk, budget), b.tconn);
      }
    case Ack(offset) => ActKeepsSidecar(s1, B.Quiet(B.OnAck(b, offset)), None);
    case CloseUp => ActKeepsSidecar(s1, B.Quiet(B.OnSidecarClose(b)), None);
    case AttachOk(_) =>
    case CloseDown =>
  }

  lemma SendKeepsSidecar(s: State, msgs: seq<Msg>)
    requires s.linked ==> s.tunnels != []
    ensures SendUp(s, msgs).c == s.c && SendUp(s, msgs).agentGot == s.agentGot
  {
  }

  /** Bytes are only added to what the agent has, and none once the close was passed on, which stays so. */
  ghost predicate Grew(s: State, s': State) {
    s.agentGot <= s'.agentGot && (s.c.downClosed ==> s'.c.downClosed && s'.agentGot == s.agentGot)
  }

  lemma SendGrew(s: State, x: State, msgs: seq<Msg>)
    requires Grew(s, x) && (x.linked ==> x.tunnels != [])
    ensures Grew(s, SendUp(x, msgs))
  {
    hide SendUp;
    SendKeepsSidecar(x, msgs);
  }

  lemma HalfGrew(s: State, c: C.Client, synced: Option<nat>)
    requires s.c.downClosed ==> c.downClosed
    ensures Grew(s, s.(c := c, synced := synced))
  {
  }

  lemma DeliverGrew(s: State, o: C.Outcome, src: seq<Option<nat>>)
    requires s.c.downClosed ==> o.c.downClosed && o.delivered == []
    ensures Grew(s, s.(c := o.c, agentGot := s.agentGot + o.delivered, src := src))
  {
    assert s.agentGot + [] == s.agentGot;
  }

  lemma DispatchGrew(s: State, item: Item, agentOk: bool)
    requires s.linked ==> s.tunnels != []
    ensures Grew(s, Dispatch(s, item, agentOk))
  {
    hide Grew, SendUp, C.OnAttachOk, C.DeliverDown, C.Serves, Times;
    HalfGrew(s, s.c, s.synced);
    if !s.c.dead {
      match item.msg
      case AttachOk(offset) =>
        var o, synced := C.OnAttachOk(s.c, offset), if C.Serves(s.c, offset) then item.inc else None;
        FramesKeepClose(s.c, offset, [], agentOk);
        HalfGrew(s, o.c, synced);
        SendGrew(s, s.(c := o.c, synced := synced), o.send);
      case Data(offset, p) =>
        var ok := agentOk && !s.c.downClosed;
        var o := C.DeliverDown(s.c, offset, p, ok);
        var src := s.src + Times(|o.delivered|, item.inc);
        FramesKeepClose(s.c, offset, p, ok);
        DeliverGrew(s, o, src);
        SendGrew(s, s.(c := o.c, agentGot := s.agentGot + o.delivered, src := src), o.send);
      case Ack(offset) => HalfGrew(s, C.OnUpstreamAck(s.c, offset), s.synced);
      case CloseDown => HalfGrew(s, C.OnClose(s.c, agentOk), s.synced);
      case _ =>
    }
  }

  lemma FramesKeepClose(c: C.Client, offset: nat, p: Bytes, agentOk: bool)
    ensures C.OnAttachOk(c, offset).c.downClosed == c.downClosed
    ensures var o := C.DeliverDown(c, offset, p, agentOk);
            o.c.downClosed == c.downClosed && (!agentOk ==> o.delivered == [])
  {
  }

  lemma ReadGrew(s: State, agentOk: bool)
    requires Enabled(s, ClientReads(agentOk))
    ensures Grew(s, Step(s, ClientReads(agentOk)))
  {
    hide Dispatch;
    DispatchGrew(PopDown(s), s.Newest().down[0], agentOk);
  }

  lemma SidecarDeliversNothing(s: State, a: Action)
    requires Enabled(s, a) && (a.OpenSession? || a.AgentWrites? || a.AgentCloses? || a.SendAttach?)
    ensures Step(s, a).c.downClosed == s.c.downClosed && Step(s, a).agentGot == s.agentGot
  {
    hide SendUp;
    match a
    case OpenSession => SendKeepsSidecar(s.(started := true, synced := Some(0)), [Open]);
    case AgentWrites(chunk) =>
      var o := C.WriteUp(s.c, chunk);
      SendKeepsSidecar(s.(c := o.c, agentSent := s.agentSent + chunk), o.send);
    case AgentCloses => SendKeepsSidecar(s.(c := C.CloseUp(s.c).c), C.CloseUp(s.c).send);
    case SendAttach => SendKeepsSidecar(s.(attachDue := false), [C.AttachFrame(s.c)]);
  }

  lemma SessionDeliversNothing(s: State, a: Action)
    requires Enabled(s, a)
    requires a.BrokerDrops? || a.DialDone? || a.DialFails? || a.UpstreamSends? || a.UpstreamEof? || a.WatchdogFires?
    ensures Step(s, a).c == s.c && Step(s, a).agentGot == s.agentGot
  {
    hide Act, B.DialDone, B.DialFailed, B.Produce, B.UpstreamEof, B.Detach, B.WatchdogFires;
    match a
    case BrokerDrops(e) => if s.incs != [] { ActChanges(ShutTunnel(s, e), B.Detach(s.Cur().s, e), None, []); }
    case DialDone(ok, budget) =>
      var b := s.Cur().s;
      ActChanges(MarkFailure(s, b.preConn != [] && !ok), B.DialDone(b, ok, budget), b.tconn, []);
    case DialFails(budget) => ActChanges(s, B.DialFailed(s.Cur().s, budget), s.Cur().s.tconn, []);
    case UpstreamSends(chunk, ok) => ActChanges(s, B.Produce(s.Cur().s, chunk, ok), s.Cur().s.tconn, chunk);
    case UpstreamEof(budget) => ActChanges(s, B.UpstreamEof(s.Cur().s, budget), s.Cur().s.tconn, []);
    case WatchdogFires => ActChanges(s, B.WatchdogFires(s.Cur().s), None, []);
  }

  /** Only a frame that the sidecar reads changes what the agent has received. */
  lemma OthersDeliverNothing(s: State, a: Action)
    requires Enabled(s, a) && !a.ClientReads?
    ensures Step(s, a).c.downClosed == s.c.downClosed && Step(s, a).agentGot == s.agentGot
  {
    hide Handle, Started, Wrote, FinishedWriting, SentAttach, Dropped, Dialled, DialRefused, Produced, Ended, Fired;
    match a
    case OpenSession => SidecarDeliversNothing(s, a);
    case AgentWrites(_) => SidecarDeliversNothing(s, a);
    case AgentCloses => SidecarDeliversNothing(s, a);
    case SendAttach => SidecarDeliversNothing(s, a);
    case Connect =>
    case Disconnect =>
    case CutUp(_, _) =>
    case CutDown(_, _) =>
    case Remove =>
    case BrokerReads(e, upstreamOk, budget) =>
      HandleKeepsSidecar(PopUp(s, e), e, s.tunnels[e].up[0], upstreamOk, budget);
    case BrokerDrops(_) => SessionDeliversNothing(s, a);
    case DialDone(_, _) => SessionDeliversNothing(s, a);
    case DialFails(_) => SessionDeliversNothing(s, a);
    case UpstreamSends(_, _) => SessionDeliversNothing(s, a);
    case UpstreamEof(_) => SessionDeliversNothing(s, a);
    case WatchdogFires => SessionDeliversNothing(s, a);
  }

  lemma StepAfterClose(s: State, a: Action)
    requires Enabled(s, a) && s.c.downClosed
    ensures Step(s, a).c.downClosed && Step(s, a).agentGot == s.agentGot
  {
    hide Step, Enabled;
    if a.ClientReads? { ReadGrew(s, a.agentOk); } else { OthersDeliverNothing(s, a); }
  }

  /** Once the sidecar has passed a close on, no run ever delivers another byte to the agent: what it
      has then is what it ends with. */
  lemma {:induction false} CloseIsFinal(s: State, run: seq<Action>)
    requires Legal(s, run) && s.c.downClosed
    ensures Exec(s, run).agentGot == s.agentGot
    decreases |run|
  {
    hide Step, Enabled;
    if run != [] {
      StepAfterClose(s, run[0]);
      CloseIsFinal(Step(s, run[0]), run[1..]);
    }
  }
}
