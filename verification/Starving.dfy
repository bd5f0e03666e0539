/** Upstream bytes that can no longer be replayed: because an earlier incarnation acknowledged them and the
    sidecar trimmed them, or because the replay, one DATA frame, is larger than the encoder takes. No
    incarnation then ever gets past the first of them. */
module Starving {
  import opened Streams
  import opened Messages
  import opened Protocol
  import opened Safety
  import opened Upstream
  import Wire
  import C = ClientSessions
  import B = BrokerSessions

  ghost predicate AllMiss(ts: seq<Tunnel>, m: nat) { forall e :: 0 <= e < |ts| ==> Misses(ts[e].up, m) }

  /** The sidecar cannot replay the byte at `m`: it has trimmed it, or has more to replay from there than
      fits into one frame. */
  predicate Unreplayable(base: nat, sent: nat, m: nat) { m < sent && (m < base || m + Wire.MAX_PAYLOAD < sent) }

  /** The current incarnation, unless it is one of the first `n`, stands at or below `m`. */
  predicate Behind(incs: seq<Incarnation>, m: nat, n: nat) { |incs| > n ==> B.Mark(incs[|incs| - 1].s) <= m }

  /** Moreover nothing in flight, on any tunnel, carries the byte at `m`. */
  ghost predicate Dry(s: State, m: nat, n: nat) {
    Unreplayable(s.c.upBuf.base, |s.agentSent|, m) && Behind(s.incs, m, n) && AllMiss(s.tunnels, m)
  }

  ghost predicate Starved(s: State, m: nat, n: nat) { Safe(s) && Dry(s, m, n) }

  /** The frames towards the broker are the same. */
  ghost predicate SameUp(ts: seq<Tunnel>, ts': seq<Tunnel>) {
    |ts'| == |ts| && forall e :: 0 <= e < |ts| ==> ts'[e].up == ts[e].up
  }

  lemma SameUpMisses(ts: seq<Tunnel>, ts': seq<Tunnel>, m: nat)
    requires AllMiss(ts, m) && SameUp(ts, ts')
    ensures AllMiss(ts', m)
  {
    hide Misses;
  }

  lemma ActSameUp(s: State, e: B.Effect, at: Option<nat>, read: Bytes)
    requires s.incs != []
    requires at.Some? ==> at.value < |s.tunnels|
    ensures SameUp(s.tunnels, Act(s, e, at, read).tunnels)
  {
    hide Tag, AfterEffect;
  }

  lemma ActDry(s: State, e: B.Effect, at: Option<nat>, read: Bytes, m: nat, n: nat)
    requires Dry(s, m, n) && s.incs != [] && (|s.incs| > n ==> B.Mark(e.s) <= m)
    requires at.Some? ==> at.value < |s.tunnels|
    ensures Dry(Act(s, e, at, read), m, n)
  {
    hide Act, AllMiss, SameUp, Unreplayable, B.Mark;
    ActChanges(s, e, at, read);
    ActSameUp(s, e, at, read);
    SameUpMisses(s.tunnels, Act(s, e, at, read).tunnels, m);
  }

  lemma SendMisses(s: State, msgs: seq<Msg>, m: nat)
    requires AllMiss(s.tunnels, m) && (s.linked ==> s.tunnels != [])
    requires msgs != [] && msgs[0].Data? && Encodable(msgs[0]) ==> msgs[0].offset > m
    ensures AllMiss(SendUp(s, msgs).tunnels, m)
  {
    var s' := SendUp(s, msgs);
    forall k | 0 <= k < |s'.tunnels| ensures Misses(s'.tunnels[k].up, m) {
      assert Misses(s.tunnels[k].up, m);
    }
  }

  lemma SendDry(s: State, msgs: seq<Msg>, m: nat, n: nat)
    requires Dry(s, m, n) && (s.linked ==> s.tunnels != [])
    requires msgs != [] && msgs[0].Data? && Encodable(msgs[0]) ==> msgs[0].offset > m
    ensures Dry(SendUp(s, msgs), m, n)
  {
    hide SendUp, AllMiss, Unreplayable, Behind, Encodable;
    SendUpChanges(s, msgs);
    SendMisses(s, msgs, m);
  }

  /** Whatever happens to the queues but for new frames. */
  lemma TunnelsDry(s: State, tunnels: seq<Tunnel>, m: nat, n: nat)
    requires Dry(s, m, n)
    requires forall k :: 0 <= k < |tunnels| ==>
               tunnels[k].up == [] ||
               (k < |s.tunnels| && (tunnels[k].up <= s.tunnels[k].up ||
                                    (s.tunnels[k].up != [] && tunnels[k].up == s.tunnels[k].up[1..])))
    ensures Dry(s.(tunnels := tunnels), m, n)
  {
    hide Unreplayable, Behind;
    forall k | 0 <= k < |tunnels| ensures Misses(tunnels[k].up, m) {
      if tunnels[k].up != [] { assert Misses(s.tunnels[k].up, m); }
    }
  }

  // ---------------------------------------------------------------- the broker reads a frame

  /** A frame that misses the byte at `m` takes no session past it. */
  lemma DataMark(b: B.Session, offset: nat, p: Bytes, upstreamOk: bool, budget: nat, m: nat)
    requires m < offset || offset + |p| <= m
    requires b.connected ==> b.preConn == []
    ensures B.Mark(b) <= m ==> B.Mark(B.OnData(b, offset, p, upstreamOk, budget).s) <= m
  {
    hide B.Transmit, B.CloseUpstream;
    CloseTakes(b, budget, 0);
    if Accepts(b.upstreamWritten, offset, p) {
      var written := b.upstreamWritten + |Fresh(b.upstreamWritten, offset, p)|;
      B.TransmitFacts(b.(upstreamWritten := written, requestOutstanding := true, watchdog := true), [Ack(written)],
                      budget);
    }
  }

  lemma DataDry(s: State, offset: nat, p: Bytes, upstreamOk: bool, budget: nat, m: nat, n: nat)
    requires Bound(s) && Dry(s, m, n) && s.inTable && (m < offset || offset + |p| <= m)
    requires s.Cur().s.connected ==> s.Cur().s.preConn == []
    ensures var failed := WritesUpstream(s.Cur().s, offset, p) && !upstreamOk;
            Dry(Act(MarkFailure(s, failed), B.OnData(s.Cur().s, offset, p, upstreamOk, budget), s.Cur().s.tconn, []),
                m, n)
  {
    hide Act, AllMiss, Unreplayable, B.OnData, B.Mark, WritesUpstream;
    DataMark(s.Cur().s, offset, p, upstreamOk, budget, m);
    ActDry(MarkFailure(s, WritesUpstream(s.Cur().s, offset, p) && !upstreamOk),
           B.OnData(s.Cur().s, offset, p, upstreamOk, budget), s.Cur().s.tconn, [], m, n);
  }

  lemma AttachDry(s: State, e: nat, d: nat, budget: nat, m: nat, n: nat)
    requires Dry(s, m, n) && s.incs != [] && e < |s.tunnels|
    ensures Dry(Act(s, B.OnAttach(s.Cur().s, e, d, budget), Some(e), []), m, n)
  {
    hide Act, AllMiss, Unreplayable, B.AttachReply, B.Transmit;
    B.TransmitFacts(B.Bind(s.Cur().s, e), B.AttachReply(s.Cur().s, d), budget);
    ActDry(s, B.OnAttach(s.Cur().s, e, d, budget), Some(e), [], m, n);
  }

  lemma CreateDry(s: State, e: nat, m: nat, n: nat)
    requires Dry(s, m, n)
    ensures Dry(Create(s, e), m, n)
  {
    hide AllMiss, Unreplayable;
  }

  lemma PushDry(s: State, e: nat, m: nat, n: nat)
    requires Dry(s, m, n) && e < |s.tunnels|
    ensures Dry(s.(tunnels := s.tunnels[e := PushDown(s.tunnels[e], [Item(None, CloseDown)], false)]), m, n)
  {
    TunnelsDry(s, s.tunnels[e := PushDown(s.tunnels[e], [Item(None, CloseDown)], false)], m, n);
  }

  lemma QuietDry(s: State, b: B.Session, m: nat, n: nat)
    requires Dry(s, m, n) && s.incs != [] && B.Mark(b) == B.Mark(s.Cur().s)
    ensures Dry(SetSession(s, b), m, n)
  {
    hide Act, AllMiss, Unreplayable, B.Mark;
    ActDry(s, B.Quiet(b), None, [], m, n);
  }

  lemma HandleDry(s: State, e: nat, msg: Msg, upstreamOk: bool, budget: nat, m: nat, n: nat)
    requires Safe(s) && Dry(s, m, n) && e < |s.tunnels|
    requires msg.Data? ==> m < msg.offset || msg.offset + |msg.payload| <= m
    ensures Dry(Handle(s, e, msg, upstreamOk, budget), m, n)
  {
    hide Act, SetSession, Create, MarkFailure, WritesUpstream, Dry, Safe, B.OnAttach, B.OnData, PushDown;
    SafeFacts(s);
    match msg
    case Open =>
      CreateDry(s, e, m, n);
      if s.inTable { AttachDry(s, e, 0, budget, m, n); }
    case Attach(d) =>
      if s.inTable {
        AttachDry(s, e, d, budget, m, n);
      } else if d == 0 {
        CreateDry(s, e, m, n);
        CreateCurrent(s, e);
        AttachDry(Create(s, e), e, 0, budget, m, n);
      } else {
        PushDry(s, e, m, n);
      }
    case Data(offset, p) =>
      if s.inTable {
        CurrentTrue(s);
        DataDry(s, offset, p, upstreamOk, budget, m, n);
      }
    case Ack(offset) => if s.inTable { QuietDry(s, B.OnAck(s.Cur().s, offset), m, n); }
    case CloseUp => if s.inTable { QuietDry(s, B.OnSidecarClose(s.Cur().s), m, n); }
    case AttachOk(_) =>
    case CloseDown =>
  }

  lemma CreateCurrent(s: State, e: nat)
    ensures Create(s, e).incs != [] && Create(s, e).tunnels == s.tunnels
  {
  }

  lemma BrokerReadDry(s: State, e: nat, upstreamOk: bool, budget: nat, m: nat, n: nat)
    requires Safe(s) && Dry(s, m, n) && Enabled(s, BrokerReads(e, upstreamOk, budget))
    ensures Dry(BrokerRead(s, e, upstreamOk, budget), m, n)
  {
    hide Handle, Safe;
    assert Misses(s.tunnels[e].up, m);
    SafeFacts(s);
    TunnelsDry(s, PopUp(s, e).tunnels, m, n);
    ShrinkSafe(s, e, s.tunnels[e].(up := s.tunnels[e].up[1..]));
    HandleDry(PopUp(s, e), e, s.tunnels[e].up[0], upstreamOk, budget, m, n);
  }

  // ---------------------------------------------------------------- the sidecar reads a frame

  /** What the sidecar has trimmed stays trimmed. */
  lemma TrimDry(s: State, c: C.Client, agentGot: Bytes, src: seq<Option<nat>>, synced: Option<nat>, m: nat, n: nat)
    requires Dry(s, m, n) && s.c.upBuf.base <= c.upBuf.base
    ensures Dry(s.(c := c, agentGot := agentGot, src := src, synced := synced), m, n)
  {
    hide AllMiss, Behind;
  }

  lemma ReattachedDry(s: State, item: Item, m: nat, n: nat)
    requires Safe(s) && Dry(s, m, n) && ItemTrue(item, s.incs) && item.msg.AttachOk?
    ensures var o := C.OnAttachOk(s.c, item.msg.offset);
            Dry(SendUp(s.(c := o.c, synced := if C.Serves(s.c, item.msg.offset) then item.inc else None), o.send), m, n)
  {
    hide Safe, SendUp, C.OnAttachOk, C.Serves, AllMiss, Behind, ItemTrue;
    var offset := item.msg.offset;
    var o, synced := C.OnAttachOk(s.c, offset), if C.Serves(s.c, offset) then item.inc else None;
    SafeFacts(s);
    WithinSent(s, item);
    RetainsSent(s);
    ServesIff(s.c, s.agentSent, offset);
    AttachOkTrims(s.c, offset);
    TrimDry(s, o.c, s.agentGot, s.src, synced, m, n);
    SendDry(s.(c := o.c, synced := synced), o.send, m, n);
  }

  lemma DeliverDry(s: State, item: Item, agentOk: bool, m: nat, n: nat)
    requires Dry(s, m, n) && (s.linked ==> s.tunnels != []) && item.msg.Data?
    ensures var o := C.DeliverDown(s.c, item.msg.offset, item.msg.payload, agentOk);
            Dry(SendUp(s.(c := o.c, agentGot := s.agentGot + o.delivered,
                          src := s.src + Times(|o.delivered|, item.inc)), o.send),
                m, n)
  {
    hide SendUp, C.DeliverDown, Dry, Times;
    var o := C.DeliverDown(s.c, item.msg.offset, item.msg.payload, agentOk);
    DeliverKeepsUp(s.c, item.msg.offset, item.msg.payload, agentOk);
    var agentGot, src := s.agentGot + o.delivered, s.src + Times(|o.delivered|, item.inc);
    TrimDry(s, o.c, agentGot, src, s.synced, m, n);
    SendDry(s.(c := o.c, agentGot := agentGot, src := src), o.send, m, n);
  }

  lemma DispatchDry(s: State, item: Item, agentOk: bool, m: nat, n: nat)
    requires Safe(s) && Dry(s, m, n) && ItemTrue(item, s.incs)
    ensures Dry(Dispatch(s, item, agentOk), m, n)
  {
    hide Safe, SendUp, C.DeliverDown, C.OnAttachOk, C.Serves, Dry, ItemTrue, Times;
    SafeFacts(s);
    if !s.c.dead {
      match item.msg
      case AttachOk(offset) => ReattachedDry(s, item, m, n);
      case Data(offset, p) => DeliverDry(s, item, agentOk && !s.c.downClosed, m, n);
      case Ack(offset) => TrimDry(s, C.OnUpstreamAck(s.c, offset), s.agentGot, s.src, s.synced, m, n);
      case CloseDown => TrimDry(s, C.OnClose(s.c, agentOk), s.agentGot, s.src, s.synced, m, n);
      case _ =>
    }
  }

  lemma AttachOkTrims(c: C.Client, offset: nat)
    ensures c.upBuf.base <= C.OnAttachOk(c, offset).c.upBuf.base
  {
  }

  lemma DeliverKeepsUp(c: C.Client, offset: nat, p: Bytes, agentOk: bool)
    ensures var o := C.DeliverDown(c, offset, p, agentOk); o.c.upBuf == c.upBuf && (o.send != [] ==> !o.send[0].Data?)
  {
  }

  lemma ReadDry(s: State, agentOk: bool, m: nat, n: nat)
    requires Safe(s) && Dry(s, m, n) && Enabled(s, ClientReads(agentOk))
    ensures Dry(ClientRead(s, agentOk), m, n)
  {
    hide Dispatch, Dry, Safe, ItemTrue;
    var t := s.Newest();
    FrontTrue(s);
    ShrinkSafe(s, |s.tunnels| - 1, t.(down := t.down[1..]));
    TunnelsDry(s, PopDown(s).tunnels, m, n);
    DispatchDry(PopDown(s), t.down[0], agentOk, m, n);
  }

  // ---------------------------------------------------------------- the other steps

  lemma WroteDry(s: State, chunk: Bytes, m: nat, n: nat)
    requires Safe(s) && Dry(s, m, n) && Enabled(s, AgentWrites(chunk))
    ensures Dry(Wrote(s, chunk), m, n)
  {
    hide SendUp, AllMiss, Behind;
    var o := C.WriteUp(s.c, chunk);
    SendDry(s.(c := o.c, agentSent := s.agentSent + chunk), o.send, m, n);
  }

  lemma SidecarDry(s: State, m: nat, n: nat)
    requires Safe(s) && Dry(s, m, n)
    ensures Enabled(s, AgentCloses) ==> Dry(FinishedWriting(s), m, n)
    ensures Enabled(s, SendAttach) ==> Dry(SentAttach(s), m, n)
    ensures !Enabled(s, OpenSession)
  {
    hide SendUp, AllMiss, Behind, Dry;
    NotPristine(s, m, n);
    if Enabled(s, AgentCloses) {
      TrimDry(s, C.CloseUp(s.c).c, s.agentGot, s.src, s.synced, m, n);
      SendDry(s.(c := C.CloseUp(s.c).c), C.CloseUp(s.c).send, m, n);
    }
    if Enabled(s, SendAttach) {
      FlagsDry(s, s.linked, false, s.inTable, m, n);
      SendDry(s.(attachDue := false), [C.AttachFrame(s.c)], m, n);
    }
  }

  lemma NotPristine(s: State, m: nat, n: nat)
    requires Safe(s) && Dry(s, m, n)
    ensures s.started
  {
  }

  lemma FlagsDry(s: State, linked: bool, attachDue: bool, inTable: bool, m: nat, n: nat)
    requires Dry(s, m, n)
    ensures Dry(s.(linked := linked, attachDue := attachDue, inTable := inTable), m, n)
  {
    hide AllMiss, Behind, Unreplayable;
  }

  lemma NetworkDry(s: State, a: Action, m: nat, n: nat)
    requires Dry(s, m, n) && Enabled(s, a)
    requires a.Connect? || a.CutUp? || a.CutDown?
    ensures Dry(Step(s, a), m, n)
  {
    hide Dry;
    match a
    case Connect =>
      TunnelsDry(s, Connected(s).tunnels, m, n);
      ConnectedDry(s, m, n);
    case CutUp(e, keep) => TunnelsDry(s, LostUp(s, e, keep).tunnels, m, n);
    case CutDown(e, keep) => TunnelsDry(s, LostDown(s, e, keep).tunnels, m, n);
  }

  lemma ConnectedDry(s: State, m: nat, n: nat)
    requires Enabled(s, Connect) && Dry(s.(tunnels := Connected(s).tunnels), m, n)
    ensures Dry(Connected(s), m, n)
  {
    hide AllMiss, Behind, Unreplayable;
  }

  lemma DroppedDry(s: State, e: nat, m: nat, n: nat)
    requires Dry(s, m, n) && Enabled(s, BrokerDrops(e))
    ensures Dry(Dropped(s, e), m, n)
  {
    hide Act, AllMiss, Unreplayable;
    TunnelsDry(s, ShutTunnel(s, e).tunnels, m, n);
    if s.incs != [] { ActDry(ShutTunnel(s, e), B.Detach(s.Cur().s, e), None, [], m, n); }
  }

  lemma DialledDry(s: State, flushOk: bool, budget: nat, m: nat, n: nat)
    requires Dry(s, m, n) && Enabled(s, DialDone(flushOk, budget))
    ensures Dry(Dialled(s, flushOk, budget), m, n)
  {
    hide Act, AllMiss, Unreplayable, B.DialDone, B.Mark;
    DialMark(s.Cur().s, flushOk, budget);
    ActDry(MarkFailure(s, s.Cur().s.preConn != [] && !flushOk), B.DialDone(s.Cur().s, flushOk, budget),
           s.Cur().s.tconn, [],
           m, n);
  }

  lemma DialMark(b: B.Session, flushOk: bool, budget: nat)
    ensures B.Mark(B.DialDone(b, flushOk, budget).s) <= B.Mark(b)
  {
    hide B.Transmit, B.CloseUpstream;
    var s1 := b.(connected := true, preConn := [], watchdog := true);
    CloseTakes(s1, budget, 0);
    var written := b.upstreamWritten + |b.preConn|;
    B.TransmitFacts(s1.(reading := true, upstreamWritten := written, requestOutstanding := true), [Ack(written)],
                    budget);
  }

  lemma DialRefusedDry(s: State, budget: nat, m: nat, n: nat)
    requires Dry(s, m, n) && Enabled(s, DialFails(budget))
    ensures Dry(DialRefused(s, budget), m, n)
  {
    hide Act, AllMiss, Unreplayable, B.Transmit;
    B.TransmitFacts(s.Cur().s, [CloseDown], budget);
    ActDry(s, B.DialFailed(s.Cur().s, budget), s.Cur().s.tconn, [], m, n);
  }

  lemma ProducedDry(s: State, chunk: Bytes, writeOk: bool, m: nat, n: nat)
    requires Dry(s, m, n) && Enabled(s, UpstreamSends(chunk, writeOk))
    ensures Dry(Produced(s, chunk, writeOk), m, n)
  {
    hide Act, AllMiss, Unreplayable;
    ActDry(s, B.Produce(s.Cur().s, chunk, writeOk), s.Cur().s.tconn, chunk, m, n);
  }

  lemma EndedDry(s: State, budget: nat, m: nat, n: nat)
    requires Dry(s, m, n) && Enabled(s, UpstreamEof(budget))
    ensures Dry(Ended(s, budget), m, n)
  {
    hide Act, AllMiss, Unreplayable, B.CloseUpstream;
    CloseTakes(s.Cur().s.(reading := false), budget, 0);
    ActDry(s, B.UpstreamEof(s.Cur().s, budget), s.Cur().s.tconn, [], m, n);
  }

  lemma FiredDry(s: State, m: nat, n: nat)
    requires Dry(s, m, n) && Enabled(s, WatchdogFires)
    ensures Dry(Fired(s), m, n)
  {
    hide Act, AllMiss, Unreplayable;
    ActDry(s, B.WatchdogFires(s.Cur().s), None, [], m, n);
  }

  lemma StepStarved(s: State, a: Action, m: nat, n: nat)
    requires Starved(s, m, n) && Enabled(s, a)
    ensures Starved(Step(s, a), m, n)
  {
    hide Safe, Dry, Started, Wrote, FinishedWriting, Connected, SentAttach, LostUp, LostDown;
    hide Dropped, Dialled, DialRefused, Produced, Ended, Fired, ClientRead, BrokerRead;
    StepSafe(s, a);
    match a
    case OpenSession => SidecarDry(s, m, n);
    case AgentWrites(chunk) => WroteDry(s, chunk, m, n);
    case AgentCloses => SidecarDry(s, m, n);
    case SendAttach => SidecarDry(s, m, n);
    case Connect => NetworkDry(s, a, m, n);
    case CutUp(_, _) => NetworkDry(s, a, m, n);
    case CutDown(_, _) => NetworkDry(s, a, m, n);
    case Disconnect => FlagsDry(s, false, false, s.inTable, m, n);
    case Remove => FlagsDry(s, s.linked, s.attachDue, false, m, n);
    case ClientReads(agentOk) => ReadDry(s, agentOk, m, n);
    case BrokerReads(e, upstreamOk, budget) => BrokerReadDry(s, e, upstreamOk, budget, m, n);
    case BrokerDrops(e) => DroppedDry(s, e, m, n);
    case DialDone(flushOk, budget) => DialledDry(s, flushOk, budget, m, n);
    case DialFails(budget) => DialRefusedDry(s, budget, m, n);
    case UpstreamSends(chunk, writeOk) => ProducedDry(s, chunk, writeOk, m, n);
    case UpstreamEof(budget) => EndedDry(s, budget, m, n);
    case WatchdogFires => FiredDry(s, m, n);
  }

  lemma {:induction false} RunStarved(s: State, run: seq<Action>, m: nat, n: nat)
    requires Starved(s, m, n) && Legal(s, run)
    ensures Starved(Exec(s, run), m, n)
    decreases |run|
  {
    hide Starved, Step, Enabled;
    if run != [] {
      StepStarved(s, run[0], m, n);
      RunStarved(Step(s, run[0]), run[1..], m, n);
    }
  }

  /** In every run from such a state, over any number of reconnects and recreated sessions, every current
      incarnation beyond the first `n` has given upstream at most the first `m` bytes and never all that the
      agent sent. */
  lemma UpstreamStarves(s: State, run: seq<Action>, m: nat, n: nat)
    requires Starved(s, m, n) && Legal(s, run)
    ensures var s' := Exec(s, run);
            m < |s'.agentSent| && (|s'.incs| > n ==> |s'.Cur().got| <= m && s'.Cur().got != s'.agentSent)
  {
    RunStarved(s, run, m, n);
    var s' := Exec(s, run);
    if |s'.incs| > n { CurrentTrue(s'); }
  }
}
