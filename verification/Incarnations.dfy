/** When the agent's bytes come from one incarnation of the session: exactly in the runs in which the
    broker creates a session only if the one before it, if any, never read a byte from upstream. */
module Incarnations {
  import opened Streams
  import opened Messages
  import opened Protocol
  import opened Safety
  import opened Introduction
  import opened Delivery
  import opened DeliveryResults
  import B = BrokerSessions
  import C = ClientSessions

  /** Only the last incarnation has read anything, and all the agent's bytes came from it. */
  ghost predicate Sole(s: State) {
    && (forall i :: 0 <= i < |s.incs| - 1 ==> s.incs[i].sent == [])
    && (forall k :: 0 <= k < |s.src| ==> s.src[k] == Some(|s.incs| - 1))
  }

  lemma AgentHasPrefix(s: State)
    requires Safe(s) && Sole(s)
    ensures s.incs == [] ==> s.agentGot == []
    ensures s.incs != [] ==> s.agentGot <= s.Cur().sent
  {
    if s.agentGot != [] { assert ByteTrue(s.agentGot[0], 0, s.src[0], s.incs); }
    if s.incs != [] { OneSource(s, |s.incs| - 1); }
  }

  /** The broker holds no such session and puts a fresh one into the table. */
  predicate Creates(s: State, a: Action) {
    && a.BrokerReads? && Enabled(s, a) && !s.inTable
    && (s.tunnels[a.e].up[0].Open? || s.tunnels[a.e].up[0] == Attach(0))
  }

  /** What the broker could test before it creates a session: the one it held before, if any, has read
      nothing from upstream, so that nothing of it can have reached the agent. */
  predicate CreatesClean(s: State, a: Action) {
    Creates(s, a) ==> s.incs == [] || s.Cur().s.downBuf.End() == 0
  }

  // ---------------------------------------------------------------- every step keeps it

  /** A session that is gone and never read a byte, or whose agent has none: the two are the same. */
  lemma GoneAndUnread(s: State)
    requires Safe(s) && !s.inTable && s.incs != []
    ensures s.agentGot == [] ==> s.Cur().s.downBuf.End() == 0
    ensures s.Cur().s.downBuf.End() == 0 ==> s.Cur().sent == []
  {
    CurrentTrue(s);
  }

  lemma CreateSole(s: State, e: nat)
    requires Safe(s) && Sole(s) && !s.inTable && (s.incs == [] || s.Cur().s.downBuf.End() == 0)
    ensures Sole(Create(s, e))
  {
    hide Safe;
    AgentHasPrefix(s);
    SourceEach(s);
    if s.incs != [] { GoneAndUnread(s); }
  }

  lemma SourceEach(s: State)
    requires Safe(s)
    ensures |s.src| == |s.agentGot|
  {
  }

  lemma HandleSole(s: State, e: nat, m: Msg, upstreamOk: bool, budget: nat)
    requires Safe(s) && Sole(s) && Bound(s) && e < |s.tunnels|
    requires !s.inTable && (m.Open? || m == Attach(0)) ==> s.incs == [] || s.Cur().s.downBuf.End() == 0
    ensures Sole(Handle(s, e, m, upstreamOk, budget))
  {
    hide Safe, Act, Sole, PushDown, B.OnAttach, B.OnData, B.OnAck, B.OnSidecarClose;
    match m
    case Open =>
      if s.inTable { ActSole(s, B.OnAttach(s.Cur().s, e, 0, budget), Some(e), []); } else { CreateSole(s, e); }
    case Attach(d) =>
      if s.inTable {
        ActSole(s, B.OnAttach(s.Cur().s, e, d, budget), Some(e), []);
      } else if d == 0 {
        CreateSole(s, e);
        var s1 := Create(s, e);
        ActSole(s1, B.OnAttach(s1.Cur().s, e, 0, budget), Some(e), []);
      } else {
        TunnelsSole(s, s.tunnels[e := PushDown(s.tunnels[e], [Item(None, CloseDown)], false)]);
      }
    case Data(offset, p) =>
      if s.inTable {
        var failed := WritesUpstream(s.Cur().s, offset, p) && !upstreamOk;
        MarkFailureSole(s, failed);
        ActSole(MarkFailure(s, failed), B.OnData(s.Cur().s, offset, p, upstreamOk, budget), s.Cur().s.tconn, []);
      }
    case Ack(offset) => if s.inTable { ActSole(s, B.Quiet(B.OnAck(s.Cur().s, offset)), None, []); }
    case CloseUp => if s.inTable { ActSole(s, B.Quiet(B.OnSidecarClose(s.Cur().s)), None, []); }
    case AttachOk(_) =>
    case CloseDown =>
  }

  lemma ActSole(s: State, e: B.Effect, at: Option<nat>, read: Bytes)
    requires Sole(s) && s.incs != []
    requires at.Some? ==> at.value < |s.tunnels|
    ensures Sole(Act(s, e, at, read))
  {
    hide Act;
    ActChanges(s, e, at, read);
  }

  lemma TunnelsSole(s: State, tunnels: seq<Tunnel>)
    requires Sole(s)
    ensures Sole(s.(tunnels := tunnels))
  {
  }

  lemma MarkFailureSole(s: State, failed: bool)
    requires Sole(s) && s.incs != []
    ensures Sole(MarkFailure(s, failed))
  {
  }

  /** Bytes that reach the agent come from an incarnation that has read some, which is the last. */
  lemma BytesFromLast(s: State, item: Item)
    requires Sole(s) && item.msg.Data? && ItemTrue(item, s.incs) && item.msg.payload != []
    ensures item.inc == Some(|s.incs| - 1)
  {
  }

  lemma DataHasSource(item: Item, incs: seq<Incarnation>)
    requires item.msg.Data? && ItemTrue(item, incs)
    ensures incs != []
  {
  }

  lemma SourcesExtend(src: seq<Option<nat>>, n: nat, from: Option<nat>, last: Option<nat>)
    requires (forall k :: 0 <= k < |src| ==> src[k] == last) && (n > 0 ==> from == last)
    ensures forall k :: 0 <= k < |src + Times(n, from)| ==> (src + Times(n, from))[k] == last
  {
  }

  lemma DeliverSole(s: State, item: Item, agentOk: bool)
    requires Sole(s) && (s.linked ==> s.tunnels != []) && !s.c.dead && item.msg.Data? && ItemTrue(item, s.incs)
    ensures Sole(Dispatch(s, item, agentOk))
  {
    hide SendUp, C.DeliverDown, ItemTrue, Times;
    var ok := agentOk && !s.c.downClosed;
    var o := C.DeliverDown(s.c, item.msg.offset, item.msg.payload, ok);
    DeliversFromPayload(s.c, item.msg.offset, item.msg.payload, ok);
    DataHasSource(item, s.incs);
    if o.delivered != [] { BytesFromLast(s, item); }
    SourcesExtend(s.src, |o.delivered|, item.inc, Some(|s.incs| - 1));
    SendUpChanges(s.(c := o.c, agentGot := s.agentGot + o.delivered, src := s.src + Times(|o.delivered|, item.inc)),
                  o.send);
  }

  lemma OtherReadSole(s: State, item: Item, agentOk: bool)
    requires Sole(s) && (s.linked ==> s.tunnels != []) && (s.c.dead || !item.msg.Data?)
    ensures Sole(Dispatch(s, item, agentOk))
  {
    hide SendUp, C.OnAttachOk, C.Serves, C.OnClose;
    if !s.c.dead && item.msg.AttachOk? {
      var o := C.OnAttachOk(s.c, item.msg.offset);
      SendUpChanges(s.(c := o.c, synced := if C.Serves(s.c, item.msg.offset) then item.inc else None), o.send);
    }
  }

  lemma ReadSole(s: State, agentOk: bool)
    requires Safe(s) && Sole(s) && Enabled(s, ClientReads(agentOk))
    ensures Sole(ClientRead(s, agentOk))
  {
    hide Safe, Dispatch, PopDown, ItemTrue, Sole;
    PopDownFacts(s);
    TunnelsSole(s, PopDown(s).tunnels);
    var s1, item := PopDown(s), s.Newest().down[0];
    if !s1.c.dead && item.msg.Data? { DeliverSole(s1, item, agentOk); } else { OtherReadSole(s1, item, agentOk); }
  }

  lemma DeliversFromPayload(c: C.Client, offset: nat, p: Bytes, agentOk: bool)
    ensures |C.DeliverDown(c, offset, p, agentOk).delivered| <= |p|
  {
  }

  lemma OtherSole(s: State, a: Action)
    requires Safe(s) && Sole(s) && Enabled(s, a) && !a.BrokerReads? && !a.ClientReads?
    ensures Sole(Step(s, a))
  {
    hide Safe, Act, Sole, SendUp, B.DialDone, B.DialFailed, B.Produce, B.UpstreamEof, B.Detach, B.WatchdogFires;
    hide C.WriteUp, C.CloseUp;
    match a
    case BrokerDrops(e) =>
      ShutSole(s, e);
      if s.incs != [] { ActSole(ShutTunnel(s, e), B.Detach(s.Cur().s, e), None, []); }
    case DialDone(flushOk, budget) =>
      var failed := s.Cur().s.preConn != [] && !flushOk;
      MarkFailureSole(s, failed);
      ActSole(MarkFailure(s, failed), B.DialDone(s.Cur().s, flushOk, budget), s.Cur().s.tconn, []);
    case DialFails(budget) => ActSole(s, B.DialFailed(s.Cur().s, budget), s.Cur().s.tconn, []);
    case UpstreamSends(chunk, writeOk) => ActSole(s, B.Produce(s.Cur().s, chunk, writeOk), s.Cur().s.tconn, chunk);
    case UpstreamEof(budget) => ActSole(s, B.UpstreamEof(s.Cur().s, budget), s.Cur().s.tconn, []);
    case WatchdogFires => ActSole(s, B.WatchdogFires(s.Cur().s), None, []);
    case _ => SidecarSole(s, a);
  }

  lemma ShutSole(s: State, e: nat)
    requires Sole(s) && e < |s.tunnels|
    ensures Sole(ShutTunnel(s, e))
  {
  }

  lemma SidecarSole(s: State, a: Action)
    requires Sole(s) && Enabled(s, a)
    requires a.OpenSession? || a.AgentWrites? || a.AgentCloses? || a.Connect? || a.SendAttach? || a.Disconnect?
             || a.CutUp? || a.CutDown? || a.Remove?
    ensures Sole(Step(s, a))
  {
  }

  lemma StepSole(s: State, a: Action)
    requires Safe(s) && Sole(s) && Enabled(s, a) && CreatesClean(s, a)
    ensures Sole(Step(s, a))
  {
    hide Safe, Sole, Handle;
    match a
    case BrokerReads(e, upstreamOk, budget) =>
      ShrinkSafe(s, e, s.tunnels[e].(up := s.tunnels[e].up[1..]));
      TunnelsSole(s, PopUp(s, e).tunnels);
      HandleSole(PopUp(s, e), e, s.tunnels[e].up[0], upstreamOk, budget);
    case ClientReads(agentOk) => ReadSole(s, agentOk);
    case _ => OtherSole(s, a);
  }

  // ---------------------------------------------------------------- every run

  ghost predicate CleanRun(s: State, run: seq<Action>)
    requires Legal(s, run)
    decreases |run|
  {
    run == [] || (CreatesClean(s, run[0]) && CleanRun(Step(s, run[0]), run[1..]))
  }

  /** What the agent has is a prefix of what the current incarnation has read. */
  predicate HasPrefix(s: State) { if s.incs == [] then s.agentGot == [] else s.agentGot <= s.Cur().sent }

  ghost predicate AlwaysPrefix(s: State, run: seq<Action>)
    requires Legal(s, run)
    decreases |run|
  {
    HasPrefix(s) && (run != [] ==> AlwaysPrefix(Step(s, run[0]), run[1..]))
  }

  lemma {:induction false} CleanRunSole(s: State, run: seq<Action>)
    requires Safe(s) && Sole(s) && Legal(s, run) && CleanRun(s, run)
    ensures Sole(Exec(s, run)) && AlwaysPrefix(s, run)
    decreases |run|
  {
    hide Safe, Sole, Step, Enabled, CreatesClean;
    AgentHasPrefix(s);
    if run != [] {
      StepSole(s, run[0]);
      StepSafe(s, run[0]);
      CleanRunSole(Step(s, run[0]), run[1..]);
    }
  }

  /** A new incarnation has read nothing, so only an empty stream is a prefix of its own. */
  lemma CreationEmpties(s: State, a: Action)
    requires Safe(s) && Creates(s, a) && HasPrefix(Step(s, a))
    ensures s.agentGot == []
  {
    hide Safe, B.OnAttach;
    SafeFacts(s);
    var s1 := PopUp(s, a.e);
    var s2 := Create(s1, a.e);
    B.TransmitFacts(B.Bind(s2.Cur().s, a.e), B.AttachReply(s2.Cur().s, 0), a.budget);
    ActChanges(s2, B.OnAttach(s2.Cur().s, a.e, 0, a.budget), Some(a.e), []);
  }

  lemma {:induction false} PrefixNeedsClean(s: State, run: seq<Action>)
    requires Safe(s) && Legal(s, run) && AlwaysPrefix(s, run)
    ensures CleanRun(s, run)
    decreases |run|
  {
    hide Safe, Step, Enabled, Creates;
    if run != [] {
      assert AlwaysPrefix(Step(s, run[0]), run[1..]) && HasPrefix(Step(s, run[0]));
      if Creates(s, run[0]) {
        CreationEmpties(s, run[0]);
        NotHeld(s, run[0]);
        if s.incs != [] { GoneAndUnread(s); }
      }
      StepSafe(s, run[0]);
      PrefixNeedsClean(Step(s, run[0]), run[1..]);
    }
  }

  lemma NotHeld(s: State, a: Action)
    requires Creates(s, a)
    ensures !s.inTable
  {
  }

  /** The agent's stream is a prefix of the current incarnation's at every moment of a run if and only if
      every session of the run is created clean; and then all the agent's bytes come from the last
      incarnation. */
  lemma PrefixIffCreatedClean(upMax: nat, downMax: nat, run: seq<Action>)
    requires Legal(Init(upMax, downMax), run)
    ensures AlwaysPrefix(Init(upMax, downMax), run) <==> CleanRun(Init(upMax, downMax), run)
    ensures CleanRun(Init(upMax, downMax), run) ==> Sole(Exec(Init(upMax, downMax), run))
  {
    var s := Init(upMax, downMax);
    InitFaithful(upMax, downMax);
    if AlwaysPrefix(s, run) { PrefixNeedsClean(s, run); }
    if CleanRun(s, run) { CleanRunSole(s, run); }
  }

  /** A frame of the newest tunnel never creates a session that is not clean: only one left over on an
      older tunnel can. */
  lemma NewestCreationIsClean(s: State, upMax: nat, downMax: nat, run: seq<Action>, a: Action)
    requires Reachable(s, upMax, downMax, run)
    requires Creates(s, a) && a.e == |s.tunnels| - 1
    ensures s.agentGot == [] && CreatesClean(s, a)
  {
    ReachableFaithful(s, upMax, downMax, run);
    assert IsIntro(s.tunnels[a.e].up[0]);
    if s.incs != [] { GoneAndUnread(s); }
  }

  /** In such runs all bytes the agent ever receives come from one incarnation, as a prefix of what that
      incarnation read from upstream. */
  lemma OneIncarnationSpeaks(upMax: nat, downMax: nat, run: seq<Action>)
    requires Legal(Init(upMax, downMax), run) && CleanRun(Init(upMax, downMax), run)
    ensures var s := Exec(Init(upMax, downMax), run);
            && (forall j, k :: 0 <= j < |s.src| && 0 <= k < |s.src| ==> s.src[j] == s.src[k])
            && HasPrefix(s)
  {
    PrefixIffCreatedClean(upMax, downMax, run);
    InitFaithful(upMax, downMax);
    RunSafe(Init(upMax, downMax), run);
    AgentHasPrefix(Exec(Init(upMax, downMax), run));
  }
}
