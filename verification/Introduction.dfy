/** Each tunnel introduces the session at most once (OPEN or ATTACH), before anything flows back on
    it. This is what FIFO order and "ATTACH before reading" give on the sidecar's newest tunnel. */
module Introduction {
  import opened Streams
  import opened Messages
  import opened Protocol
  import opened Safety
  import C = ClientSessions
  import B = BrokerSessions

  predicate IsIntro(m: Msg) { m.Open? || m.Attach? }

  /** An introduction still under way names exactly what the sidecar has delivered. */
  predicate IntroAt(m: Msg, delivered: nat) {
    (m.Attach? ==> m.offset == delivered) && (m.Open? ==> delivered == 0)
  }

  predicate BoundToNewest(s: State) {
    s.incs != [] && s.tunnels != [] && s.Cur().s.tconn == Some(|s.tunnels| - 1)
  }

  /** While a tunnel's introduction is due or in flight, nothing comes back on it and no session is
      bound to it; and there is only one. */
  ghost predicate Introduces(t: Tunnel, attachDue: bool, delivered: nat, bound: bool) {
    && (attachDue ==> t.down == [] && !bound)
    && forall k :: 0 <= k < |t.up| && IsIntro(t.up[k]) ==>
         && !attachDue && t.down == [] && !bound
         && IntroAt(t.up[k], delivered)
         && forall j :: 0 <= j < |t.up| && IsIntro(t.up[j]) ==> j == k
  }

  ghost predicate Ordered(s: State) {
    && (s.attachDue ==> s.linked && s.started)
    && (s.linked ==> s.tunnels != [])
    && (s.tunnels != [] ==> Introduces(s.Newest(), s.attachDue, |s.agentGot|, BoundToNewest(s)))
  }

  ghost predicate NoIntro(q: seq<Msg>) { forall k :: 0 <= k < |q| ==> !IsIntro(q[k]) }

  /** The sidecar sends a frame that introduces nothing, or the introduction itself. */
  lemma SendUpOrdered(s: State, msgs: seq<Msg>)
    requires Ordered(s)
    requires msgs != [] && s.linked && IsIntro(msgs[0]) ==>
               && !s.attachDue && s.Newest().down == [] && !BoundToNewest(s)
               && IntroAt(msgs[0], |s.agentGot|) && NoIntro(s.Newest().up)
    ensures Ordered(SendUp(s, msgs))
  {
  }

  /** A step of the current incarnation that neither binds it to the newest tunnel nor writes there
      unless it was bound there. */
  lemma ActOrdered(s: State, e: B.Effect, at: Option<nat>, read: Bytes)
    requires Ordered(s)
    requires s.incs != []
    requires at.Some? ==> at.value < |s.tunnels|
    requires at == Some(|s.tunnels| - 1) || e.s.tconn == Some(|s.tunnels| - 1) ==>
               BoundToNewest(s) || (!s.attachDue && NoIntro(s.Newest().up))
    ensures Ordered(Act(s, e, at, read))
  {
    hide Act;
    ActChanges(s, e, at, read);
  }

  lemma MarkFailureOrdered(s: State, failed: bool)
    requires Ordered(s) && s.incs != []
    ensures Ordered(MarkFailure(s, failed))
    ensures var s' := MarkFailure(s, failed);
            s' == s.(synced := s'.synced, incs := s'.incs) && s'.incs != [] && s'.Cur().s == s.Cur().s
  {
  }

  lemma CreateOrdered(s: State, e: nat)
    requires Ordered(s)
    requires e < |s.tunnels|
    requires e == |s.tunnels| - 1 ==> !s.attachDue && NoIntro(s.Newest().up)
    ensures Ordered(Create(s, e))
  {
  }

  lemma PopUpOrdered(s: State, e: nat)
    requires Ordered(s)
    requires e < |s.tunnels| && s.tunnels[e].up != []
    ensures Ordered(PopUp(s, e))
    ensures e == |s.tunnels| - 1 && IsIntro(s.tunnels[e].up[0]) ==> !s.attachDue && NoIntro(PopUp(s, e).Newest().up)
  {
  }

  lemma LostSessionOrdered(s: State, e: nat, item: Item)
    requires Ordered(s)
    requires e < |s.tunnels|
    requires e == |s.tunnels| - 1 ==> !s.attachDue && NoIntro(s.Newest().up)
    ensures Ordered(s.(tunnels := s.tunnels[e := PushDown(s.tunnels[e], [item], false)]))
  {
  }

  lemma DataOrdered(s: State, offset: nat, p: Bytes, upstreamOk: bool, budget: nat)
    requires Ordered(s) && Bound(s) && s.inTable
    ensures Ordered(Act(MarkFailure(s, WritesUpstream(s.Cur().s, offset, p) && !upstreamOk),
                        B.OnData(s.Cur().s, offset, p, upstreamOk, budget), s.Cur().s.tconn, []))
  {
    hide Act, B.OnData, MarkFailure;
    var b := s.Cur().s;
    var failed := WritesUpstream(b, offset, p) && !upstreamOk;
    MarkFailureOrdered(s, failed);
    B.OnDataBinding(b, offset, p, upstreamOk, budget);
    ActOrdered(MarkFailure(s, failed), B.OnData(b, offset, p, upstreamOk, budget), b.tconn, []);
  }

  lemma QuietOrdered(s: State, b: B.Session)
    requires Ordered(s) && s.incs != []
    requires b.tconn == s.Cur().s.tconn
    ensures Ordered(SetSession(s, b))
  {
  }

  lemma HandleOrdered(s: State, e: nat, m: Msg, upstreamOk: bool, budget: nat)
    requires Ordered(s) && Bound(s)
    requires e < |s.tunnels|
    requires e == |s.tunnels| - 1 && IsIntro(m) ==> !s.attachDue && NoIntro(s.Newest().up)
    ensures Ordered(Handle(s, e, m, upstreamOk, budget))
  {
    hide Act, SetSession, Ordered, MarkFailure, B.OnData, B.OnAttach;
    match m {
      case Open =>
        if s.inTable { AttachOrdered(s, e, 0, budget); } else { CreateOrdered(s, e); }
      case Attach(d) =>
        if s.inTable {
          AttachOrdered(s, e, d, budget);
        } else if d == 0 {
          CreateOrdered(s, e);
          AttachOrdered(Create(s, e), e, 0, budget);
        } else {
          LostSessionOrdered(s, e, Item(None, CloseDown));
        }
      case Data(offset, p) => if s.inTable { DataOrdered(s, offset, p, upstreamOk, budget); }
      case Ack(offset) => if s.inTable { QuietOrdered(s, B.OnAck(s.Cur().s, offset)); }
      case CloseUp => if s.inTable { QuietOrdered(s, B.OnSidecarClose(s.Cur().s)); }
      case _ =>
    }
  }

  lemma AttachOrdered(s: State, e: nat, d: nat, budget: nat)
    requires Ordered(s)
    requires s.incs != [] && e < |s.tunnels|
    requires e == |s.tunnels| - 1 ==> !s.attachDue && NoIntro(s.Newest().up)
    ensures Ordered(Act(s, B.OnAttach(s.Cur().s, e, d, budget), Some(e), []))
  {
    B.TransmitFacts(B.Bind(s.Cur().s, e), B.AttachReply(s.Cur().s, d), budget);
    ActOrdered(s, B.OnAttach(s.Cur().s, e, d, budget), Some(e), []);
  }

  /** Once the introduction has gone, what the sidecar has received does not matter. */
  lemma HalfOrdered(s: State, s': State)
    requires Ordered(s) && !s.attachDue && (s.tunnels != [] ==> NoIntro(s.Newest().up))
    requires s' == s.(c := s'.c, agentGot := s'.agentGot, src := s'.src, synced := s'.synced)
    ensures Ordered(s')
  {
  }

  lemma AnswersIntroduceNothing(c: C.Client, offset: nat, p: Bytes, agentOk: bool)
    ensures var m := C.OnAttachOk(c, offset).send; m != [] ==> !IsIntro(m[0])
    ensures var m := C.DeliverDown(c, offset, p, agentOk).send; m != [] ==> !IsIntro(m[0])
  {
  }

  lemma DispatchOrdered(s: State, item: Item, agentOk: bool)
    requires Ordered(s)
    requires !s.attachDue && (s.tunnels != [] ==> NoIntro(s.Newest().up))
    ensures Ordered(Dispatch(s, item, agentOk))
  {
    hide SendUp, C.OnAttachOk, C.DeliverDown, C.Serves, C.OnClose, Introduces, NoIntro, IsIntro, Times;
    if !s.c.dead {
      match item.msg
      case AttachOk(offset) =>
        AnswersIntroduceNothing(s.c, offset, [], agentOk);
        var o := C.OnAttachOk(s.c, offset);
        var s1 := s.(c := o.c, synced := if C.Serves(s.c, offset) then item.inc else None);
        HalfOrdered(s, s1);
        SendUpOrdered(s1, o.send);
      case Data(offset, p) =>
        var ok := agentOk && !s.c.downClosed;
        AnswersIntroduceNothing(s.c, offset, p, ok);
        var o := C.DeliverDown(s.c, offset, p, ok);
        var s1 := s.(c := o.c, agentGot := s.agentGot + o.delivered, src := s.src + Times(|o.delivered|, item.inc));
        HalfOrdered(s, s1);
        SendUpOrdered(s1, o.send);
      case Ack(offset) => HalfOrdered(s, Dispatch(s, item, agentOk));
      case CloseDown => HalfOrdered(s, Dispatch(s, item, agentOk));
      case _ =>
    }
  }

  lemma ClientReadOrdered(s: State, agentOk: bool)
    requires Ordered(s)
    requires Enabled(s, ClientReads(agentOk))
    ensures Ordered(ClientRead(s, agentOk))
  {
    DispatchOrdered(PopDown(s), s.Newest().down[0], agentOk);
  }

  lemma BrokerReadOrdered(s: State, e: nat, upstreamOk: bool, budget: nat)
    requires Ordered(s)
    requires Enabled(s, BrokerReads(e, upstreamOk, budget))
    ensures Ordered(BrokerRead(s, e, upstreamOk, budget))
  {
    PopUpOrdered(s, e);
    HandleOrdered(PopUp(s, e), e, s.tunnels[e].up[0], upstreamOk, budget);
  }

  lemma LostOrdered(s: State, e: nat, keep: nat)
    requires Ordered(s)
    ensures Enabled(s, CutUp(e, keep)) ==> Ordered(LostUp(s, e, keep))
    ensures Enabled(s, CutDown(e, keep)) ==> Ordered(LostDown(s, e, keep))
  {
  }

  lemma StartedOrdered(s: State)
    requires Ordered(s) && Safe(s)
    requires Enabled(s, OpenSession)
    ensures Ordered(Started(s))
  {
  }

  lemma SentAttachOrdered(s: State)
    requires Ordered(s)
    requires Enabled(s, SendAttach) && s.c.downDelivered == |s.agentGot|
    ensures Ordered(SentAttach(s))
  {
    SendUpOrdered(s.(attachDue := false), [C.AttachFrame(s.c)]);
  }

  lemma ShutOrdered(s: State, e: nat)
    requires Ordered(s) && e < |s.tunnels|
    ensures Ordered(ShutTunnel(s, e))
  {
  }

  lemma SidecarOrdered(s: State)
    requires Ordered(s) && Bound(s)
    ensures Enabled(s, AgentCloses) ==> Ordered(FinishedWriting(s))
    ensures Enabled(s, Connect) ==> Ordered(Connected(s))
    ensures Ordered(s.(linked := false, attachDue := false)) && Ordered(s.(inTable := false))
  {
    if Enabled(s, AgentCloses) { SendUpOrdered(s.(c := C.CloseUp(s.c).c), C.CloseUp(s.c).send); }
  }

  lemma WroteOrdered(s: State, chunk: Bytes)
    requires Ordered(s)
    requires Enabled(s, AgentWrites(chunk))
    ensures Ordered(Wrote(s, chunk))
  {
    var o := C.WriteUp(s.c, chunk);
    SendUpOrdered(s.(c := o.c, agentSent := s.agentSent + chunk), o.send);
  }

  lemma DroppedOrdered(s: State, e: nat)
    requires Ordered(s)
    requires Enabled(s, BrokerDrops(e))
    ensures Ordered(Dropped(s, e))
  {
    hide Act;
    if s.incs != [] { ActOrdered(ShutTunnel(s, e), B.Detach(s.Cur().s, e), None, []); }
  }

  lemma DialledOrdered(s: State, flushOk: bool, budget: nat)
    requires Ordered(s)
    requires Enabled(s, DialDone(flushOk, budget))
    ensures Ordered(Dialled(s, flushOk, budget))
  {
    hide B.DialDone;
    var b := s.Cur().s;
    MarkFailureOrdered(s, b.preConn != [] && !flushOk);
    B.DialDoneBinding(b, flushOk, budget);
    ActOrdered(MarkFailure(s, b.preConn != [] && !flushOk), B.DialDone(b, flushOk, budget), b.tconn, []);
  }

  lemma DialRefusedOrdered(s: State, budget: nat)
    requires Ordered(s)
    requires Enabled(s, DialFails(budget))
    ensures Ordered(DialRefused(s, budget))
  {
    B.TransmitFacts(s.Cur().s, [CloseDown], budget);
    ActOrdered(s, B.DialFailed(s.Cur().s, budget), s.Cur().s.tconn, []);
  }

  lemma EndedOrdered(s: State, budget: nat)
    requires Ordered(s)
    requires Enabled(s, UpstreamEof(budget))
    ensures Ordered(Ended(s, budget))
  {
    hide B.CloseUpstream;
    B.CloseBinding(s.Cur().s.(reading := false), budget);
    ActOrdered(s, B.UpstreamEof(s.Cur().s, budget), s.Cur().s.tconn, []);
  }

  lemma FiredOrdered(s: State)
    requires Ordered(s)
    requires Enabled(s, WatchdogFires)
    ensures Ordered(Fired(s))
  {
    ActOrdered(s, B.WatchdogFires(s.Cur().s), None, []);
  }

  lemma ProducedOrdered(s: State, chunk: Bytes, writeOk: bool)
    requires Ordered(s)
    requires Enabled(s, UpstreamSends(chunk, writeOk))
    ensures Ordered(Produced(s, chunk, writeOk))
  {
    ActOrdered(s, B.Produce(s.Cur().s, chunk, writeOk), s.Cur().s.tconn, chunk);
  }

  lemma StepOrdered(s: State, a: Action)
    requires Safe(s) && Ordered(s)
    requires Enabled(s, a)
    ensures Ordered(Step(s, a))
  {
    hide Started, Wrote, FinishedWriting, Connected, SentAttach, ClientRead, LostUp, LostDown, BrokerRead;
    hide Dropped, Dialled, DialRefused, Produced, Ended, Fired, Safe, Ordered;
    SafeFacts(s);
    match a {
      case OpenSession => StartedOrdered(s);
      case SendAttach => SentAttachOrdered(s);
      case AgentWrites(chunk) => WroteOrdered(s, chunk);
      case ClientReads(agentOk) => ClientReadOrdered(s, agentOk);
      case CutUp(e, keep) => LostOrdered(s, e, keep);
      case CutDown(e, keep) => LostOrdered(s, e, keep);
      case BrokerReads(e, upstreamOk, budget) => BrokerReadOrdered(s, e, upstreamOk, budget);
      case BrokerDrops(e) => DroppedOrdered(s, e);
      case DialDone(flushOk, budget) => DialledOrdered(s, flushOk, budget);
      case DialFails(budget) => DialRefusedOrdered(s, budget);
      case UpstreamEof(budget) => EndedOrdered(s, budget);
      case WatchdogFires => FiredOrdered(s);
      case UpstreamSends(chunk, writeOk) => ProducedOrdered(s, chunk, writeOk);
      case _ => SidecarOrdered(s);
    }
  }
}
