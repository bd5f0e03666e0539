/** Nothing that a bound session has to tell is kept back: in every run, while the session is bound to the newest
    tunnel and that has lost nothing, its close and the count of the bytes it gave to upstream are with the
    sidecar or on their way; and reading the tunnel to its end passes them on. */
module Told {
  import opened Streams
  import opened ReplayBuffers
  import opened Messages
  import opened Protocol
  import opened Safety
  import opened Introduction
  import opened Delivery
  import opened DeliveryResults
  import opened Upstream
  import C = ClientSessions
  import B = BrokerSessions

  /** How far the sidecar, having dropped the first `base` bytes, drops after all frames of the queue. */
  function AckMax(q: seq<Item>, base: nat): nat
    decreases |q|
  {
    if q == [] then base
    else AckMax(q[1..], if IsAck(q[0].msg) then Max(base, q[0].msg.offset) else base)
  }

  lemma {:induction false} AckMaxAppend(q: seq<Item>, r: seq<Item>, base: nat)
    ensures AckMax(q + r, base) == AckMax(r, AckMax(q, base))
    decreases |q|
  {
    if q == [] {
      assert q + r == r;
    } else {
      assert (q + r)[0] == q[0] && (q + r)[1..] == q[1..] + r;
      AckMaxAppend(q[1..], r, if IsAck(q[0].msg) then Max(base, q[0].msg.offset) else base);
    }
  }

  lemma {:induction false} AckMaxAhead(q: seq<Item>, base: nat)
    ensures base <= AckMax(q, base)
    decreases |q|
  {
    if q != [] { AckMaxAhead(q[1..], if IsAck(q[0].msg) then Max(base, q[0].msg.offset) else base); }
  }

  /** The close of incarnation `inc` is in the queue. */
  ghost predicate HasClose(q: seq<Item>, inc: nat) { Item(Some(inc), CloseDown) in q }

  /** The current incarnation has recorded a close, and the agent has no more than it had read by then, or
      nothing but bytes of it: the close concerns the stream that the agent reads. */
  ghost predicate Expects(s: State) {
    && s.incs != [] && s.Cur().s.downClosed
    && (|s.agentGot| <= s.Cur().closedAt || forall k :: 0 <= k < |s.src| ==> s.src[k] == Some(|s.incs| - 1))
  }

  ghost predicate CloseTold(s: State)
    requires s.tunnels != []
  {
    Expects(s) ==> s.c.downClosed || HasClose(s.Newest().down, |s.incs| - 1)
  }

  ghost predicate AcksTold(s: State)
    requires s.tunnels != []
  {
    Written(s) <= AckMax(s.Newest().down, s.c.upBuf.base)
  }

  /** The session is bound to the newest tunnel, which has lost nothing coming down, and the sidecar's half
      is alive. */
  predicate Listening(s: State) { s.tunnels != [] && BoundToNewest(s) && !s.Newest().downCut && !s.c.dead }

  ghost predicate Told(s: State) { Listening(s) ==> CloseTold(s) && AcksTold(s) }

  // ---------------------------------------------------------------- session steps

  /** How a handler that stays bound reports what it does: bytes given to upstream are acknowledged up to the
      last, and a close is sent when it is recorded. */
  ghost predicate Tells(i: Incarnation, e: B.Effect) {
    && (e.s.tconn == i.s.tconn || e.s.tconn == None)
    && (i.s.downClosed ==> e.s.downClosed)
    && (e.s.tconn.Some? ==>
          && !e.broke
          && (e.upstream != [] ==> e.sent == [Ack(|i.got| + |e.upstream|)])
          && (e.s.downClosed && !i.s.downClosed ==> e.sent == [CloseDown]))
  }

  lemma ActTold(s: State, e: B.Effect, read: Bytes)
    requires Told(s) && Bound(s) && s.incs != [] && Tells(s.Cur(), e)
    ensures Told(Act(s, e, s.Cur().s.tconn, read))
  {
    hide Act, AckMax;
    var at := s.Cur().s.tconn;
    ActChanges(s, e, at, read);
    var s' := Act(s, e, at, read);
    if Listening(s') {
      var q := s.Newest().down;
      var items := Tag(|s.incs| - 1, e.sent);
      assert s'.Newest().down == q + items;
      AckMaxAppend(q, items, s.c.upBuf.base);
      AckMaxAhead(items, AckMax(q, s.c.upBuf.base));
      if e.upstream != [] { OneAck(items, AckMax(q, s.c.upBuf.base)); }
      if e.s.downClosed && !s.Cur().s.downClosed { assert items[0] == Item(Some(|s.incs| - 1), CloseDown); }
    }
  }

  lemma OneAck(q: seq<Item>, base: nat)
    requires |q| == 1 && IsAck(q[0].msg)
    ensures AckMax(q, base) == Max(base, q[0].msg.offset)
  {
    assert q[1..] == [];
  }

  /** A step that writes to no tunnel, gives nothing to upstream and records no close. */
  lemma SilentTold(s: State, e: B.Effect)
    requires Told(s) && s.incs != [] && e.upstream == []
    requires e.s.tconn == s.Cur().s.tconn || e.s.tconn == None
    requires e.s.downClosed == s.Cur().s.downClosed
    ensures Told(Act(s, e, None, []))
  {
    hide Act, AckMax;
    ActChanges(s, e, None, []);
  }

  lemma CloseTells(i: Incarnation, budget: nat)
    ensures Tells(i, B.CloseUpstream(i.s, budget))
  {
    hide B.Transmit;
    B.TransmitFacts(i.s.(downClosed := true), [CloseDown], budget);
  }

  lemma OnDataTells(i: Incarnation, offset: nat, p: Bytes, upstreamOk: bool, budget: nat)
    requires i.s.upstreamWritten == |i.got|
    ensures Tells(i, B.OnData(i.s, offset, p, upstreamOk, budget))
  {
    hide B.Transmit, B.CloseUpstream;
    if WritesUpstream(i.s, offset, p) {
      CloseTells(i, budget);
      var written := i.s.upstreamWritten + |Fresh(i.s.upstreamWritten, offset, p)|;
      B.TransmitFacts(i.s.(upstreamWritten := written, requestOutstanding := true, watchdog := true), [Ack(written)],
                      budget);
    }
  }

  lemma DialDoneTells(i: Incarnation, flushOk: bool, budget: nat)
    requires i.s.upstreamWritten == |i.got|
    ensures Tells(i, B.DialDone(i.s, flushOk, budget))
  {
    hide B.Transmit, B.CloseUpstream;
    var s1 := i.s.(connected := true, preConn := [], watchdog := true);
    CloseTells(i.(s := s1), budget);
    var written := i.s.upstreamWritten + |i.s.preConn|;
    B.TransmitFacts(s1.(reading := true, upstreamWritten := written, requestOutstanding := true), [Ack(written)],
                    budget);
  }

  lemma OtherTells(i: Incarnation, chunk: Bytes, writeOk: bool, budget: nat)
    ensures Tells(i, B.Produce(i.s, chunk, writeOk)) && Tells(i, B.DialFailed(i.s, budget))
    ensures Tells(i, B.UpstreamEof(i.s, budget))
  {
    hide B.Transmit, B.CloseUpstream;
    B.TransmitFacts(i.s, [CloseDown], budget);
    CloseTells(i.(s := i.s.(reading := false)), budget);
  }

  // ---------------------------------------------------------------- attaching

  /** An attach on a tunnel that the sidecar no longer reads. */
  lemma StaleAttachTold(s: State, e: nat, d: nat, budget: nat)
    requires s.incs != [] && e < |s.tunnels| - 1
    ensures Told(Act(s, B.OnAttach(s.Cur().s, e, d, budget), Some(e), []))
  {
    hide Act, B.AttachReply;
    var eff := B.OnAttach(s.Cur().s, e, d, budget);
    B.TransmitFacts(B.Bind(s.Cur().s, e), B.AttachReply(s.Cur().s, d), budget);
    ActChanges(s, eff, Some(e), []);
  }

  /** The agent has no more than the current incarnation has read. */
  lemma ExpectsWithin(s: State)
    requires Safe(s) && Expects(s)
    ensures |s.agentGot| <= |s.Cur().sent|
  {
    hide Safe;
    CurrentTrue(s);
    if forall k :: 0 <= k < |s.src| ==> s.src[k] == Some(|s.incs| - 1) { OneSource(s, |s.incs| - 1); }
  }

  /** The answer to an attach at the sidecar's own offset says how much upstream has, and it ends with the
      close if and only if there is one and the sidecar does not stand beyond the end. */
  lemma ReplyTells(i: Incarnation, d: nat, a: Bytes)
    requires IncarnationTrue(i, a, d)
    ensures var reply := B.AttachReply(i.s, d);
            && reply != [] && reply[0] == AttachOk(|i.got|)
            && (CloseDown in reply <==> i.s.downClosed && d <= |i.sent|)
  {
    hide IncarnationTrue;
    AttachFacts(i, d, a);
    var reply, ok := B.AttachReply(i.s, d), AttachOk(i.s.upstreamWritten);
    if d <= |i.sent| {
      FromIsTail(i.s.downBuf, i.sent, d);
      var data := if d < |i.sent| then [Data(d, i.sent[d..])] else [];
      assert reply == [ok] + data + (if i.s.downClosed then [CloseDown] else []);
      if i.s.downClosed { assert reply[|reply| - 1] == CloseDown; }
    } else {
      assert reply == [ok];
    }
  }

  lemma AttachFacts(i: Incarnation, d: nat, a: Bytes)
    requires IncarnationTrue(i, a, d)
    ensures i.s.downBuf.Retains(i.sent) && i.s.downBuf.base <= d && i.s.upstreamWritten == |i.got|
  {
  }

  /** The state after the newest tunnel's introduction was answered. */
  lemma NewestAttached(s: State, budget: nat)
    requires s.incs != [] && s.tunnels != [] && s.Newest().down == []
    ensures var e, i := |s.tunnels| - 1, s.Cur();
            var s' := Act(s, B.OnAttach(i.s, e, |s.agentGot|, budget), Some(e), []);
            && s' == s.(tunnels := s'.tunnels, incs := s'.incs) && |s'.tunnels| == |s.tunnels| && |s'.incs| == |s.incs|
            && s'.Cur() == i.(s := i.s.(tconn := s'.Cur().s.tconn))
            && (Listening(s') ==> s'.Newest().down == Tag(|s.incs| - 1, B.AttachReply(i.s, |s.agentGot|)))
  {
    hide Act, B.AttachReply, B.Transmit;
    var e, i := |s.tunnels| - 1, s.Cur();
    var eff, reply := B.OnAttach(i.s, e, |s.agentGot|, budget), B.AttachReply(i.s, |s.agentGot|);
    B.TransmitFacts(B.Bind(i.s, e), reply, budget);
    ActChanges(s, eff, Some(e), []);
    assert i.got + [] == i.got && i.sent + [] == i.sent;
    assert [] + Tag(|s.incs| - 1, eff.sent) == Tag(|s.incs| - 1, eff.sent);
  }

  lemma NewestAttachTold(s: State, budget: nat)
    requires Safe(s) && s.incs != [] && s.tunnels != [] && s.Newest().down == []
    ensures var e := |s.tunnels| - 1;
            Told(Act(s, B.OnAttach(s.Cur().s, e, |s.agentGot|, budget), Some(e), []))
  {
    hide Act, AckMax, B.AttachReply, B.OnAttach, Safe, IncarnationTrue, Expects, HasClose;
    var e, last := |s.tunnels| - 1, |s.incs| - 1;
    CurrentTrue(s);
    NewestAttached(s, budget);
    ReplyTells(s.Cur(), |s.agentGot|, s.agentSent);
    var s' := Act(s, B.OnAttach(s.Cur().s, e, |s.agentGot|, budget), Some(e), []);
    if Listening(s') {
      var reply := B.AttachReply(s.Cur().s, |s.agentGot|);
      FirstAck(Tag(last, reply), s.c.upBuf.base);
      if Expects(s') {
        SameExpects(s, s');
        ExpectsWithin(s);
        ClosedOf(s);
        TaggedClose(last, reply);
      }
    }
  }

  /** Binding and answering change nothing about what the agent is to expect. */
  lemma SameExpects(s: State, s': State)
    requires s.incs != [] && |s'.incs| == |s.incs| && s'.agentGot == s.agentGot && s'.src == s.src
    requires s'.Cur().s.downClosed == s.Cur().s.downClosed && s'.Cur().closedAt == s.Cur().closedAt
    ensures Expects(s') <==> Expects(s)
  {
  }

  lemma ClosedOf(s: State)
    requires Expects(s)
    ensures s.incs != [] && s.Cur().s.downClosed
  {
  }

  lemma TaggedClose(inc: nat, msgs: seq<Msg>)
    requires CloseDown in msgs
    ensures HasClose(Tag(inc, msgs), inc)
  {
    var k :| 0 <= k < |msgs| && msgs[k] == CloseDown;
    assert Tag(inc, msgs)[k] == Item(Some(inc), CloseDown);
  }

  lemma FirstAck(q: seq<Item>, base: nat)
    requires q != [] && IsAck(q[0].msg)
    ensures q[0].msg.offset <= AckMax(q, base)
  {
    AckMaxAhead(q[1..], Max(base, q[0].msg.offset));
  }

  /** A new incarnation has nothing to tell. */
  lemma CreateTold(s: State, e: nat)
    ensures Told(Create(s, e))
  {
  }

  lemma IntroTold(s: State, e: nat, d: nat, budget: nat)
    requires Safe(s) && s.started && e < |s.tunnels|
    requires e == |s.tunnels| - 1 ==> s.Newest().down == [] && d == |s.agentGot|
    ensures s.inTable ==> Told(Act(s, B.OnAttach(s.Cur().s, e, d, budget), Some(e), []))
    ensures !s.inTable && d == 0 ==>
              Told(Act(Create(s, e), B.OnAttach(Create(s, e).Cur().s, e, 0, budget), Some(e), []))
  {
    hide Act, B.OnAttach, Told, Safe;
    SafeFacts(s);
    if s.inTable {
      if e == |s.tunnels| - 1 { NewestAttachTold(s, budget); } else { StaleAttachTold(s, e, d, budget); }
    } else if d == 0 {
      CreateSafe(s, e);
      if e == |s.tunnels| - 1 {
        NewestAttachTold(Create(s, e), budget);
      } else {
        StaleAttachTold(Create(s, e), e, 0, budget);
      }
    }
  }

  // ---------------------------------------------------------------- the broker reads a frame

  lemma LostTold(s: State, e: nat)
    requires Told(s) && e < |s.tunnels|
    ensures Told(s.(tunnels := s.tunnels[e := PushDown(s.tunnels[e], [Item(None, CloseDown)], false)]))
  {
    var s' := s.(tunnels := s.tunnels[e := PushDown(s.tunnels[e], [Item(None, CloseDown)], false)]);
    if Listening(s') && e == |s.tunnels| - 1 {
      AckMaxAppend(s.Newest().down, [Item(None, CloseDown)], s.c.upBuf.base);
      AckMaxAhead([Item(None, CloseDown)], AckMax(s.Newest().down, s.c.upBuf.base));
    }
  }

  lemma MarkFailureTold(s: State, failed: bool)
    requires Told(s) && s.incs != []
    ensures Told(MarkFailure(s, failed))
  {
    hide AckMax;
  }

  lemma DataTold(s: State, offset: nat, p: Bytes, upstreamOk: bool, budget: nat)
    requires Safe(s) && Told(s) && s.inTable
    ensures Told(Act(MarkFailure(s, WritesUpstream(s.Cur().s, offset, p) && !upstreamOk),
                     B.OnData(s.Cur().s, offset, p, upstreamOk, budget), s.Cur().s.tconn, []))
  {
    hide Act, Safe, Told, B.OnData, WritesUpstream;
    SafeFacts(s);
    CurrentTrue(s);
    var s1 := MarkFailure(s, WritesUpstream(s.Cur().s, offset, p) && !upstreamOk);
    MarkFailureTold(s, WritesUpstream(s.Cur().s, offset, p) && !upstreamOk);
    OnDataTells(s1.Cur(), offset, p, upstreamOk, budget);
    ActTold(s1, B.OnData(s.Cur().s, offset, p, upstreamOk, budget), []);
  }

  lemma HandleTold(s: State, e: nat, m: Msg, upstreamOk: bool, budget: nat)
    requires Safe(s) && Told(s) && s.started && e < |s.tunnels|
    requires e == |s.tunnels| - 1 && IsIntro(m) ==> s.Newest().down == [] && IntroAt(m, |s.agentGot|)
    ensures Told(Handle(s, e, m, upstreamOk, budget))
  {
    hide Act, Told, Safe, MarkFailure, B.OnData, B.OnAttach, PushDown;
    SafeFacts(s);
    match m
    case Data(offset, p) => if s.inTable { DataTold(s, offset, p, upstreamOk, budget); }
    case Ack(offset) => if s.inTable { SilentTold(s, B.Quiet(B.OnAck(s.Cur().s, offset))); }
    case CloseUp => if s.inTable { SilentTold(s, B.Quiet(B.OnSidecarClose(s.Cur().s))); }
    case Open =>
      IntroTold(s, e, 0, budget);
      CreateTold(s, e);
    case Attach(d) =>
      IntroTold(s, e, d, budget);
      LostTold(s, e);
    case AttachOk(_) =>
    case CloseDown =>
  }

  lemma BrokerReadTold(s: State, e: nat, upstreamOk: bool, budget: nat)
    requires Faithful(s) && Told(s) && Enabled(s, BrokerReads(e, upstreamOk, budget))
    ensures Told(BrokerRead(s, e, upstreamOk, budget))
  {
    hide Handle, Safe, AckMax;
    StartedByFrames(s, e);
    ShrinkSafe(s, e, s.tunnels[e].(up := s.tunnels[e].up[1..]));
    HandleTold(PopUp(s, e), e, s.tunnels[e].up[0], upstreamOk, budget);
  }

  // ---------------------------------------------------------------- the sidecar reads a frame

  /** What must hold behind the frame that is being read. */
  ghost predicate Ready(s: State, item: Item) {
    Listening(s) ==>
      && (Expects(s) ==>
            s.c.downClosed || item == Item(Some(|s.incs| - 1), CloseDown) || HasClose(s.Newest().down, |s.incs| - 1))
      && Written(s) <= AckMax([item] + s.Newest().down, s.c.upBuf.base)
  }

  lemma FrontMax(item: Item, rest: seq<Item>, base: nat)
    ensures AckMax([item] + rest, base) == AckMax(rest, if IsAck(item.msg) then Max(base, item.msg.offset) else base)
  {
    assert ([item] + rest)[0] == item && ([item] + rest)[1..] == rest;
  }

  lemma SendTold(s: State, msgs: seq<Msg>)
    requires Told(s) && (s.linked ==> s.tunnels != [])
    ensures Told(SendUp(s, msgs))
  {
    hide SendUp, AckMax;
    SendUpChanges(s, msgs);
  }

  /** The sidecar drops what the broker has. */
  lemma TrimTold(s: State, item: Item, synced: Option<nat>)
    requires Ready(s, item) && IsAck(item.msg)
    requires s.c.upBuf.Retains(s.agentSent) && item.msg.offset <= |s.agentSent|
    ensures Told(s.(c := s.c.(upBuf := s.c.upBuf.TrimTo(item.msg.offset)), synced := synced))
  {
    hide AckMax;
    TrimRetains(s.c.upBuf, s.agentSent, item.msg.offset);
    if s.tunnels != [] { FrontMax(item, s.Newest().down, s.c.upBuf.base); }
  }

  lemma DeliveredTold(s: State, item: Item, added: Bytes)
    requires Ready(s, item) && item.msg.Data?
    ensures Told(s) && Told(Delivered(s, item.inc, added)) && Told(s.(c := s.c.(dead := true)))
  {
    hide AckMax;
    if s.tunnels != [] { FrontMax(item, s.Newest().down, s.c.upBuf.base); }
    var s' := Delivered(s, item.inc, added);
    if Expects(s') {
      assert forall k :: 0 <= k < |s.src| ==> s'.src[k] == s.src[k];
    }
  }

  lemma QuietTold(s: State, item: Item, agentOk: bool)
    requires Ready(s, item)
    ensures item.msg.CloseDown? ==> Told(s.(c := C.OnClose(s.c, agentOk)))
    ensures !item.msg.CloseDown? && !IsAck(item.msg) ==> Told(s)
  {
    hide AckMax;
    if s.tunnels != [] { FrontMax(item, s.Newest().down, s.c.upBuf.base); }
  }

  lemma DataReadTold(s: State, item: Item, agentOk: bool)
    requires Bound(s) && Ready(s, item) && item.msg.Data? && !s.c.dead
    ensures Told(Dispatch(s, item, agentOk))
  {
    hide Dispatch, Told, Ready, SendUp, Delivered;
    var offset, p, d := item.msg.offset, item.msg.payload, s.c.downDelivered;
    DispatchData(s, item.inc, offset, p, agentOk);
    var added := if Accepts(d, offset, p) then Fresh(d, offset, p) else [];
    DeliveredTold(s, item, added);
    DeliveredTunnels(s, item.inc, added);
    SendTold(Delivered(s, item.inc, added), [Ack(d + |added|)]);
  }

  lemma DeliveredTunnels(s: State, inc: Option<nat>, added: Bytes)
    ensures var s' := Delivered(s, inc, added); s'.linked == s.linked && s'.tunnels == s.tunnels
  {
  }

  lemma DispatchTold(s: State, item: Item, agentOk: bool)
    requires Safe(s) && Ready(s, item) && ItemTrue(item, s.incs)
    ensures Told(Dispatch(s, item, agentOk))
  {
    hide Safe, Told, Ready, SendUp, C.DeliverDown, C.Serves, C.OnClose, Times, ItemTrue;
    SafeFacts(s);
    RetainsSent(s);
    QuietTold(s, item, agentOk);
    if s.c.dead {
      DeadTold(s);
    } else {
      match item.msg
      case Data(_, _) => DataReadTold(s, item, agentOk);
      case AttachOk(offset) =>
        WithinSent(s, item);
        var synced := if C.Serves(s.c, offset) then item.inc else None;
        TrimTold(s, item, synced);
        SendTold(s.(c := s.c.(upBuf := s.c.upBuf.TrimTo(offset)), synced := synced), C.OnAttachOk(s.c, offset).send);
      case Ack(offset) =>
        WithinSent(s, item);
        TrimTold(s, item, s.synced);
      case _ =>
    }
  }

  lemma DeadTold(s: State)
    requires s.c.dead
    ensures Told(s)
  {
  }

  lemma ClientReadTold(s: State, agentOk: bool)
    requires Safe(s) && Told(s) && Enabled(s, ClientReads(agentOk))
    ensures Told(ClientRead(s, agentOk))
  {
    hide Safe, Dispatch, ItemTrue, AckMax, PopDown;
    PopDownFacts(s);
    var item, s1 := s.Newest().down[0], PopDown(s);
    assert [item] + s1.Newest().down == s.Newest().down;
    DispatchTold(s1, item, agentOk);
  }

  // ---------------------------------------------------------------- every step

  lemma SidecarTold(s: State, a: Action)
    requires Told(s) && Enabled(s, a)
    requires a.OpenSession? || a.AgentWrites? || a.AgentCloses? || a.SendAttach?
    ensures Told(Step(s, a))
  {
    hide SendUp, AckMax;
    match a
    case OpenSession => SendTold(s.(started := true, synced := Some(0)), [Open]);
    case AgentWrites(chunk) =>
      var o := C.WriteUp(s.c, chunk);
      SendTold(s.(c := o.c, agentSent := s.agentSent + chunk), o.send);
    case AgentCloses => SendTold(s.(c := C.CloseUp(s.c).c), C.CloseUp(s.c).send);
    case SendAttach => SendTold(s.(attachDue := false), [C.AttachFrame(s.c)]);
  }

  lemma NetworkTold(s: State, a: Action)
    requires Told(s) && Enabled(s, a)
    requires a.Connect? || a.Disconnect? || a.CutUp? || a.CutDown? || a.Remove?
    ensures Told(Step(s, a))
  {
    hide AckMax;
  }

  lemma DroppedTold(s: State, e: nat)
    requires Told(s) && Enabled(s, BrokerDrops(e))
    ensures Told(Dropped(s, e))
  {
    hide Act, AckMax;
    if s.incs != [] { SilentTold(ShutTunnel(s, e), B.Detach(s.Cur().s, e)); }
  }

  lemma DialledTold(s: State, flushOk: bool, budget: nat)
    requires Safe(s) && Told(s) && Enabled(s, DialDone(flushOk, budget))
    ensures Told(Dialled(s, flushOk, budget))
  {
    hide Act, Safe, Told, B.DialDone;
    CurrentTrue(s);
    var failed := s.Cur().s.preConn != [] && !flushOk;
    var s1 := MarkFailure(s, failed);
    MarkFailureTold(s, failed);
    DialDoneTells(s1.Cur(), flushOk, budget);
    ActTold(s1, B.DialDone(s.Cur().s, flushOk, budget), []);
  }

  lemma SessionTold(s: State, a: Action)
    requires Told(s) && Enabled(s, a)
    requires a.DialFails? || a.UpstreamSends? || a.UpstreamEof? || a.WatchdogFires?
    ensures Told(Step(s, a))
  {
    hide Act, Told, Tells, B.DialFailed, B.Produce, B.UpstreamEof;
    match a
    case DialFails(budget) =>
      OtherTells(s.Cur(), [], true, budget);
      ActTold(s, B.DialFailed(s.Cur().s, budget), []);
    case UpstreamSends(chunk, ok) =>
      OtherTells(s.Cur(), chunk, ok, 0);
      ActTold(s, B.Produce(s.Cur().s, chunk, ok), chunk);
    case UpstreamEof(budget) =>
      OtherTells(s.Cur(), [], true, budget);
      ActTold(s, B.UpstreamEof(s.Cur().s, budget), []);
    case WatchdogFires => SilentTold(s, B.WatchdogFires(s.Cur().s));
  }

  /** Every step keeps it. */
  lemma StepTold(s: State, a: Action)
    requires Faithful(s) && Told(s) && Enabled(s, a)
    ensures Told(Step(s, a))
  {
    hide Safe, Ordered, Flowing, Told, Started, Wrote, FinishedWriting, Connected, SentAttach, ClientRead, LostUp;
    hide LostDown, BrokerRead, Dropped, Dialled, DialRefused, Produced, Ended, Fired;
    match a
    case OpenSession => SidecarTold(s, a);
    case AgentWrites(_) => SidecarTold(s, a);
    case AgentCloses => SidecarTold(s, a);
    case SendAttach => SidecarTold(s, a);
    case Connect => NetworkTold(s, a);
    case Disconnect => NetworkTold(s, a);
    case CutUp(_, _) => NetworkTold(s, a);
    case CutDown(_, _) => NetworkTold(s, a);
    case Remove => NetworkTold(s, a);
    case ClientReads(agentOk) => ClientReadTold(s, agentOk);
    case BrokerReads(e, upstreamOk, budget) => BrokerReadTold(s, e, upstreamOk, budget);
    case BrokerDrops(e) => DroppedTold(s, e);
    case DialDone(flushOk, budget) => DialledTold(s, flushOk, budget);
    case DialFails(_) => SessionTold(s, a);
    case UpstreamSends(_, _) => SessionTold(s, a);
    case UpstreamEof(_) => SessionTold(s, a);
    case WatchdogFires => SessionTold(s, a);
  }

  lemma {:induction false} RunTold(s: State, run: seq<Action>)
    requires Faithful(s) && Told(s) && Legal(s, run)
    ensures Told(Exec(s, run))
    decreases |run|
  {
    hide Faithful, Told, Step, Enabled;
    if run != [] {
      StepFaithful(s, run[0]);
      StepTold(s, run[0]);
      RunTold(Step(s, run[0]), run[1..]);
    }
  }

  // ---------------------------------------------------------------- what it means

  /** In every run, while the session is bound to the newest tunnel and that has lost nothing: a recorded close
      that concerns the agent's stream has been passed on or is in flight; and the acknowledgements in flight
      take the sidecar at least to the end of what upstream was given. */
  lemma EverythingIsTold(s: State, upMax: nat, downMax: nat, run: seq<Action>)
    requires Reachable(s, upMax, downMax, run) && Listening(s)
    ensures Expects(s) ==> s.c.downClosed || HasClose(s.Newest().down, |s.incs| - 1)
    ensures |s.Cur().got| <= AckMax(s.Newest().down, s.c.upBuf.base)
  {
    hide Faithful;
    InitFaithful(upMax, downMax);
    RunTold(Init(upMax, downMax), run);
  }

  // ---------------------------------------------------------------- reading the tunnel to its end

  /** The sidecar is reading its newest tunnel. */
  predicate Reading(s: State) { Bound(s) && s.linked && !s.attachDue && s.tunnels != [] }

  /** Only the sidecar's half and what it has sent differ. */
  ghost predicate SameBroker(s: State, s': State) {
    && s' == s.(c := s'.c, agentGot := s'.agentGot, src := s'.src, synced := s'.synced, tunnels := s'.tunnels)
    && |s'.tunnels| == |s.tunnels|
    && (s.tunnels != [] ==> s'.Newest().downCut == s.Newest().downCut)
  }

  /** The close is passed on, and the half dies of nothing but bytes that come after one. */
  predicate PassesOn(c: C.Client, c': C.Client, closes: bool) {
    && (c.downClosed || (!c.dead && closes) ==> c'.downClosed)
    && (c'.dead ==> c.dead || c'.downClosed)
  }

  lemma SendSame(s: State, x: State, msgs: seq<Msg>)
    requires SameBroker(s, x) && (x.linked ==> x.tunnels != [])
    ensures var s' := SendUp(x, msgs);
            SameBroker(s, s') && s'.c == x.c && (x.tunnels != [] ==> s'.Newest().down == x.Newest().down)
  {
    hide SendUp;
    SendUpChanges(x, msgs);
  }

  lemma FramesPassOn(c: C.Client, offset: nat, p: Bytes)
    ensures PassesOn(c, C.OnAttachOk(c, offset).c, false)
    ensures PassesOn(c, C.DeliverDown(c, offset, p, !c.downClosed).c, false)
    ensures PassesOn(c, C.OnClose(c, true), true) && PassesOn(c, C.OnUpstreamAck(c, offset), false)
  {
  }

  lemma DispatchOne(s: State, item: Item)
    requires s.linked ==> s.tunnels != []
    ensures var s' := Dispatch(s, item, true);
            && SameBroker(s, s') && PassesOn(s.c, s'.c, item.msg.CloseDown?)
            && (s.tunnels != [] ==> s'.Newest().down == s.Newest().down)
  {
    hide SendUp, PassesOn, C.OnAttachOk, C.DeliverDown, C.Serves, C.OnClose, C.OnUpstreamAck, Times;
    SamePassesOn(s.c, item.msg.CloseDown?);
    if !s.c.dead {
      match item.msg
      case AttachOk(offset) =>
        FramesPassOn(s.c, offset, []);
        var o := C.OnAttachOk(s.c, offset);
        SendSame(s, s.(c := o.c, synced := if C.Serves(s.c, offset) then item.inc else None), o.send);
      case Data(offset, p) =>
        FramesPassOn(s.c, offset, p);
        var o := C.DeliverDown(s.c, offset, p, !s.c.downClosed);
        SendSame(s, s.(c := o.c, agentGot := s.agentGot + o.delivered,
                       src := s.src + Times(|o.delivered|, item.inc)), o.send);
      case Ack(offset) => FramesPassOn(s.c, offset, []);
      case CloseDown => FramesPassOn(s.c, 0, []);
      case _ =>
    }
  }

  lemma SamePassesOn(c: C.Client, closes: bool)
    ensures c.dead || !closes ==> PassesOn(c, c, closes)
  {
  }

  lemma ReadOne(s: State)
    requires Reading(s) && s.Newest().down != []
    ensures Enabled(s, ClientReads(true))
    ensures var s' := Step(s, ClientReads(true));
            && Reading(s') && SameBroker(s, s') && s'.Newest().down == s.Newest().down[1..]
            && PassesOn(s.c, s'.c, s.Newest().down[0].msg.CloseDown?)
  {
    hide Dispatch, PassesOn;
    DispatchOne(PopDown(s), s.Newest().down[0]);
  }

  ghost predicate AnyClose(q: seq<Item>) { exists k :: 0 <= k < |q| && q[k].msg.CloseDown? }

  lemma {:induction false} ReadAll(s: State) returns (run: seq<Action>)
    requires Reading(s)
    ensures Legal(s, run)
    ensures var s' := Exec(s, run);
            && Reading(s') && SameBroker(s, s') && s'.Newest().down == []
            && PassesOn(s.c, s'.c, AnyClose(s.Newest().down))
    decreases |s.Newest().down|
  {
    hide Step, Enabled;
    if s.Newest().down == [] {
      run := [];
    } else {
      ReadOne(s);
      var s1, q := Step(s, ClientReads(true)), s.Newest().down;
      var rest := ReadAll(s1);
      run := [ClientReads(true)] + rest;
      assert run[1..] == rest;
      if k :| 1 <= k < |q| && q[k].msg.CloseDown? { assert q[1..][k - 1] == q[k]; }
    }
  }

  /** A close that the sidecar reads half-closes the agent's connection, or ends the session if that cannot be
      half-closed; nothing else happens. */
  lemma CloseHalvesOrEnds(s: State, agentOk: bool)
    requires Enabled(s, ClientReads(agentOk)) && !s.c.dead && s.Newest().down[0].msg.CloseDown?
    ensures Step(s, ClientReads(agentOk)) == PopDown(s).(c := s.c.(downClosed := true, dead := !agentOk))
  {
  }

  /** Reading the tunnel to its end tells the sidecar everything: it passes a close on that concerns the
      agent's stream; and unless bytes that came after a close have ended it, the agent has what the session
      has read from upstream, and the sidecar retains nothing that upstream has. */
  lemma ReadingTellsAll(s: State, upMax: nat, downMax: nat, before: seq<Action>) returns (run: seq<Action>)
    requires Reachable(s, upMax, downMax, before) && Listening(s) && s.linked && !s.attachDue
    ensures Legal(s, run) && Exec(s, run).incs == s.incs
    ensures Expects(s) ==> Exec(s, run).c.downClosed
    ensures var s' := Exec(s, run);
            !s'.c.dead ==> |s.Cur().sent| <= |s'.agentGot| && |s.Cur().got| <= s'.c.upBuf.base
    ensures Exec(s, run).c.dead ==> Exec(s, run).c.downClosed
  {
    hide Faithful, Step, Enabled, AckMax;
    ReachableBound(s, upMax, downMax, before);
    run := ReadAll(s);
    var s' := Exec(s, run);
    EverythingIsTold(s, upMax, downMax, before);
    if Expects(s) && !s.c.downClosed {
      var k :| 0 <= k < |s.Newest().down| && s.Newest().down[k] == Item(Some(|s.incs| - 1), CloseDown);
    }
    RunThen(Init(upMax, downMax), before, run);
    if !s'.c.dead {
      EverythingIsTold(s', upMax, downMax, before + run);
      DownstreamContiguous(s', upMax, downMax, before + run);
      NothingLeft(s'.c.upBuf.base, |s'.agentGot|);
    }
  }

  lemma NothingLeft(base: nat, d: nat)
    ensures AckMax([], base) == base && Reach([], d) == d
  {
  }

  lemma ReachableBound(s: State, upMax: nat, downMax: nat, run: seq<Action>)
    requires Reachable(s, upMax, downMax, run)
    ensures Bound(s) && Faithful(s)
  {
    ReachableFaithful(s, upMax, downMax, run);
  }

  // ---------------------------------------------------------------- a failed dial

  /** A failed dial is reported on the tunnel to which the session is bound, if that takes one more frame:
      exactly one close is added to it, and no other tunnel is written to. If the sidecar still reads that
      tunnel, reading it to its end passes the close on. */
  lemma DialFailureIsReported(s: State, budget: nat) returns (run: seq<Action>)
    requires Enabled(s, DialFails(budget)) && budget > 0
    requires s.Cur().s.tconn.Some? && !s.tunnels[s.Cur().s.tconn.value].downCut
    ensures var s', t := Step(s, DialFails(budget)), s.Cur().s.tconn.value;
            && s'.tunnels == s.tunnels[t := s.tunnels[t].(down := s.tunnels[t].down +
                                                                  [Item(Some(|s.incs| - 1), CloseDown)])]
            && s'.Cur().s.dead && s'.Cur().s.tconn == Some(t)
            && s'.c == s.c
    ensures Legal(Step(s, DialFails(budget)), run)
    ensures BoundToNewest(s) && s.linked && !s.attachDue && !s.c.dead ==>
              Exec(Step(s, DialFails(budget)), run).c.downClosed
  {
    var b, t, last := s.Cur().s, s.Cur().s.tconn.value, |s.incs| - 1;
    DialFailedSends(b, budget);
    var e, s' := B.DialFailed(b, budget), Step(s, DialFails(budget));
    assert Tag(last, [CloseDown]) == [Item(Some(last), CloseDown)];
    ActChanges(s, e, b.tconn, []);
    run := [];
    if BoundToNewest(s) && s.linked && !s.attachDue && !s.c.dead {
      assert s'.Newest().down[|s.Newest().down|].msg == CloseDown;
      run := ReadAll(s');
    }
  }

  lemma DialFailedSends(b: B.Session, budget: nat)
    requires budget > 0 && b.tconn.Some?
    ensures B.DialFailed(b, budget) == B.Effect(b.(dead := true, watchdog := false), [CloseDown], false, [], [])
  {
    B.TransmitFacts(b, [CloseDown], budget);
  }

  // ---------------------------------------------------------------- the agent's own close

  /** What serving a frame of the newest tunnel leaves as it was for a session in the broker's table. */
  ghost predicate Serves(s: State, s': State) {
    && Bound(s') && s.inTable && s'.inTable && |s'.tunnels| == |s.tunnels| && |s'.incs| == |s.incs|
    && s.tunnels != [] && s'.Newest().brokerOpen == s.Newest().brokerOpen && s'.Newest().up == s.Newest().up
  }

  lemma ActServes(s: State, e: B.Effect, at: Option<nat>)
    requires Bound(s) && s.inTable && s.tunnels != []
    requires at.Some? ==> at.value < |s.tunnels|
    requires e.s.tconn.Some? ==> e.s.tconn.value < |s.tunnels|
    ensures Serves(s, Act(s, e, at, [])) && Act(s, e, at, []).Cur().s == e.s
  {
    hide Act, Tag, AfterEffect;
    ActChanges(s, e, at, []);
    EffectIs(s.Cur(), e);
  }

  lemma EffectIs(i: Incarnation, e: B.Effect)
    ensures AfterEffect(i, e, []).s == e.s
  {
  }

  lemma HandleServes(s: State, m: Msg, budget: nat)
    requires Bound(s) && s.inTable && s.tunnels != []
    ensures var s' := Handle(s, |s.tunnels| - 1, m, true, budget);
            Serves(s, s') && (s.Cur().s.upClosed || m.CloseUp? ==> s'.Cur().s.upClosed)
  {
    hide Act, Serves, B.OnAttach, B.OnData, MarkFailure;
    var e, b := |s.tunnels| - 1, s.Cur().s;
    match m
    case Open =>
      AttachKeepsUp(b, e, 0, budget);
      ActServes(s, B.OnAttach(b, e, 0, budget), Some(e));
    case Attach(d) =>
      AttachKeepsUp(b, e, d, budget);
      ActServes(s, B.OnAttach(b, e, d, budget), Some(e));
    case Data(offset, p) =>
      MarkFailureIs(s);
      DataKeepsUp(b, offset, p, budget);
      ActServes(s, B.OnData(b, offset, p, true, budget), b.tconn);
    case Ack(offset) => ActServes(s, B.Quiet(B.OnAck(b, offset)), None);
    case CloseUp => ActServes(s, B.Quiet(B.OnSidecarClose(b)), None);
    case AttachOk(_) => NothingServes(s);
    case CloseDown => NothingServes(s);
  }

  lemma NothingServes(s: State)
    requires Bound(s) && s.inTable && s.tunnels != []
    ensures Serves(s, s)
  {
  }

  /** The broker reads one frame of the newest tunnel for a session in its table. */
  lemma ServeOne(s: State, budget: nat)
    requires Bound(s) && s.inTable && s.tunnels != [] && s.Newest().brokerOpen && s.Newest().up != []
    ensures Enabled(s, BrokerReads(|s.tunnels| - 1, true, budget))
    ensures var s' := Step(s, BrokerReads(|s.tunnels| - 1, true, budget));
            && Bound(s') && s'.inTable && |s'.tunnels| == |s.tunnels| && |s'.incs| == |s.incs|
            && s'.Newest().brokerOpen && s'.Newest().up == s.Newest().up[1..]
            && (s.Cur().s.upClosed || s.Newest().up[0].CloseUp? ==> s'.Cur().s.upClosed)
  {
    hide Handle;
    HandleServes(PopUp(s, |s.tunnels| - 1), s.Newest().up[0], budget);
  }

  lemma MarkFailureIs(s: State)
    requires s.incs != []
    ensures MarkFailure(s, false) == s
  {
  }

  lemma AttachKeepsUp(b: B.Session, e: nat, d: nat, budget: nat)
    ensures var s' := B.OnAttach(b, e, d, budget).s;
            s'.upClosed == b.upClosed && (s'.tconn == Some(e) || s'.tconn == None)
  {
    B.TransmitFacts(B.Bind(b, e), B.AttachReply(b, d), budget);
  }

  lemma DataKeepsUp(b: B.Session, offset: nat, p: Bytes, budget: nat)
    ensures var s' := B.OnData(b, offset, p, true, budget).s;
            s'.upClosed == b.upClosed && (s'.tconn == b.tconn || s'.tconn == None)
  {
    hide B.Transmit;
    B.OnDataBinding(b, offset, p, true, budget);
    if Accepts(b.upstreamWritten, offset, p) {
      var written := b.upstreamWritten + |Fresh(b.upstreamWritten, offset, p)|;
      B.TransmitFacts(b.(upstreamWritten := written, requestOutstanding := true, watchdog := true), [Ack(written)],
                      budget);
    }
  }

  lemma {:induction false} ServeAll(s: State, budget: nat) returns (run: seq<Action>)
    requires Bound(s) && s.inTable && s.tunnels != [] && s.Newest().brokerOpen
    ensures Legal(s, run)
    ensures var s' := Exec(s, run);
            && s'.inTable && |s'.incs| == |s.incs| && s'.incs != []
            && (s.Cur().s.upClosed || CloseUp in s.Newest().up ==> s'.Cur().s.upClosed)
    decreases |s.Newest().up|
  {
    hide Step, Enabled;
    if s.Newest().up == [] {
      run := [];
    } else {
      ServeOne(s, budget);
      var a := BrokerReads(|s.tunnels| - 1, true, budget);
      var rest := ServeAll(Step(s, a), budget);
      run := [a] + rest;
      assert run[1..] == rest;
    }
  }

  /** When the agent closes its half for the first time on a tunnel that is up and has lost nothing, exactly one
      close is added to the frames on their way; and the broker, which holds the session, has closed that half
      when it has read the tunnel to its end. */
  lemma AgentCloseArrives(s: State, budget: nat) returns (run: seq<Action>)
    requires Enabled(s, AgentCloses) && s.linked && !s.Newest().upCut
    ensures var s' := Step(s, AgentCloses);
            && s'.c.upClosed
            && s'.tunnels == s.tunnels[|s.tunnels| - 1 := s.Newest().(up := s.Newest().up + [CloseUp])]
            && s'.incs == s.incs
    ensures Legal(Step(s, AgentCloses), run)
    ensures s.inTable && s.Newest().brokerOpen ==>
              var s' := Exec(Step(s, AgentCloses), run); s'.incs != [] && s'.Cur().s.upClosed
  {
    var s1 := Step(s, AgentCloses);
    run := [];
    if s.inTable && s.Newest().brokerOpen {
      assert s1.Newest().up[|s.Newest().up|] == CloseUp;
      run := ServeAll(s1, budget);
    }
  }
}
