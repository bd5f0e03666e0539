/** Exactly-once, in-order delivery in both directions, for every run. */
module Safety {
  import opened Streams
  import opened ReplayBuffers
  import opened Messages
  import opened Protocol
  import C = ClientSessions
  import B = BrokerSessions

  /** A frame towards the broker tells the truth: DATA carries the agent's own bytes at their offset,
      and no offset acknowledged or attached at exceeds what the agent has received. */
  ghost predicate UpTrue(m: Msg, agentSent: Bytes, delivered: nat) {
    match m
    case Data(offset, p) => SliceAt(agentSent, offset, p)
    case Ack(offset) => offset <= delivered
    case Attach(offset) => offset <= delivered
    case _ => true
  }

  /** A frame towards the sidecar tells the truth about the incarnation that sent it. */
  ghost predicate DownTrue(m: Msg, i: Incarnation) {
    match m
    case Data(offset, p) => SliceAt(i.sent, offset, p)
    case Ack(offset) => offset <= |i.got|
    case AttachOk(offset) => offset <= |i.got|
    case CloseDown => Over(i)
    case _ => true
  }

  /** The incarnation has recorded a close, or its dial has failed. */
  predicate Over(i: Incarnation) { i.s.downClosed || i.s.dead }

  ghost predicate ItemTrue(item: Item, incs: seq<Incarnation>) {
    if item.inc.Some? then item.inc.value < |incs| && DownTrue(item.msg, incs[item.inc.value]) else item.msg.CloseDown?
  }

  ghost predicate TunnelTrue(t: Tunnel, agentSent: Bytes, delivered: nat, incs: seq<Incarnation>) {
    && (forall k :: 0 <= k < |t.up| ==> UpTrue(t.up[k], agentSent, delivered))
    && (forall k :: 0 <= k < |t.down| ==> ItemTrue(t.down[k], incs))
  }

  ghost predicate TunnelsTrue(ts: seq<Tunnel>, agentSent: Bytes, delivered: nat, incs: seq<Incarnation>) {
    forall e :: 0 <= e < |ts| ==> TunnelTrue(ts[e], agentSent, delivered, incs)
  }

  /** What holds of every incarnation: its upstream holds a prefix of the agent's stream starting at
      byte 0, its buffer retains the rest of what it read, and nothing unacknowledged was dropped. */
  ghost predicate IncarnationTrue(i: Incarnation, agentSent: Bytes, delivered: nat) {
    && i.s.downBuf.Retains(i.sent)
    && i.s.downBuf.base <= delivered
    && i.s.upstreamWritten == |i.got|
    && i.got + i.s.preConn <= agentSent
    && (i.s.connected ==> i.s.preConn == [])
    && (!i.s.connected ==> i.got == [] && i.sent == [] && !i.s.reading && !i.s.downClosed)
    && (i.s.dead && i.sent != [] ==> i.s.downBuf.base == |i.sent|)
    && (i.s.dead && !i.s.downClosed ==> !i.s.connected)
    && i.closedAt <= |i.sent|
    && (i.s.downClosed && !i.cutShort ==> !i.s.reading && i.closedAt == |i.sent|)
  }

  ghost predicate IncarnationsTrue(incs: seq<Incarnation>, agentSent: Bytes, delivered: nat) {
    forall i :: 0 <= i < |incs| ==> IncarnationTrue(incs[i], agentSent, delivered)
  }

  /** Only the incarnation in the session table can be alive. */
  ghost predicate OthersDead(incs: seq<Incarnation>, inTable: bool) {
    && (forall i :: 0 <= i < |incs| - 1 ==> incs[i].s.dead)
    && (incs != [] && !inTable ==> incs[|incs| - 1].s.dead)
  }

  /** Byte k of the agent's stream is byte k of the stream that its incarnation read from upstream. */
  ghost predicate SourceTrue(agentGot: Bytes, src: seq<Option<nat>>, incs: seq<Incarnation>) {
    && |src| == |agentGot|
    && forall k :: 0 <= k < |src| ==> ByteTrue(agentGot[k], k, src[k], incs)
  }

  ghost predicate ByteTrue(b: byte, k: nat, from: Option<nat>, incs: seq<Incarnation>) {
    from.Some? && from.value < |incs| && k < |incs[from.value].sent| && b == incs[from.value].sent[k]
  }

  /** Nothing has happened to the session yet. */
  ghost predicate Pristine(s: State) {
    && s.agentSent == [] && s.agentGot == [] && s.incs == [] && !s.c.dead && !s.attachDue
    && forall e :: 0 <= e < |s.tunnels| ==> s.tunnels[e].up == [] && s.tunnels[e].down == []
  }

  ghost predicate Safe(s: State) {
    && Bound(s)
    && s.c.upBuf.Retains(s.agentSent)
    && s.c.downDelivered == |s.agentGot|
    && SourceTrue(s.agentGot, s.src, s.incs)
    && TunnelsTrue(s.tunnels, s.agentSent, |s.agentGot|, s.incs)
    && IncarnationsTrue(s.incs, s.agentSent, |s.agentGot|)
    && OthersDead(s.incs, s.inTable)
    && (!s.started ==> Pristine(s))
  }

  lemma SafeFacts(s: State)
    requires Safe(s)
    ensures Bound(s) && s.c.downDelivered == |s.agentGot|
  {
  }

  lemma CurrentTrue(s: State)
    requires Safe(s) && s.incs != []
    ensures IncarnationTrue(s.Cur(), s.agentSent, |s.agentGot|)
  {
  }

  // ---------------------------------------------------------------- growth of the histories

  /** `later` is the same incarnation with longer histories. */
  ghost predicate Grown(i: Incarnation, later: Incarnation) {
    i.sent <= later.sent && i.got <= later.got && (Over(i) ==> Over(later))
  }

  ghost predicate AllGrown(incs: seq<Incarnation>, later: seq<Incarnation>) {
    |incs| <= |later| && forall i :: 0 <= i < |incs| ==> Grown(incs[i], later[i])
  }

  lemma TunnelTrueGrows(t: Tunnel, a: Bytes, b: Bytes, d: nat, d': nat, incs: seq<Incarnation>, later: seq<Incarnation>)
    requires a <= b && d <= d' && AllGrown(incs, later)
    requires TunnelTrue(t, a, d, incs)
    ensures TunnelTrue(t, b, d', later)
  {
  }

  /** Longer incarnation histories leave every frame in flight and every delivered byte true. */
  lemma HistoriesGrow(s: State, later: seq<Incarnation>)
    requires Safe(s)
    requires AllGrown(s.incs, later)
    ensures SourceTrue(s.agentGot, s.src, later)
    ensures TunnelsTrue(s.tunnels, s.agentSent, |s.agentGot|, later)
  {
    forall k | 0 <= k < |s.src| ensures ByteTrue(s.agentGot[k], k, s.src[k], later) {
      assert ByteTrue(s.agentGot[k], k, s.src[k], s.incs);
      assert Grown(s.incs[s.src[k].value], later[s.src[k].value]);
    }
    forall e | 0 <= e < |s.tunnels| ensures TunnelTrue(s.tunnels[e], s.agentSent, |s.agentGot|, later) {
      TunnelTrueGrows(s.tunnels[e], s.agentSent, s.agentSent, |s.agentGot|, |s.agentGot|, s.incs, later);
    }
  }

  // ---------------------------------------------------------------- the two ways to write frames

  lemma SendUpSafe(s: State, msgs: seq<Msg>)
    requires Safe(s)
    requires s.started
    requires msgs == [] || UpTrue(msgs[0], s.agentSent, |s.agentGot|)
    ensures Safe(SendUp(s, msgs))
  {
  }

  lemma PushSafe(s: State, e: nat, items: seq<Item>, broke: bool)
    requires Safe(s)
    requires s.started && e < |s.tunnels|
    requires forall k :: 0 <= k < |items| ==> ItemTrue(items[k], s.incs)
    ensures Safe(s.(tunnels := s.tunnels[e := PushDown(s.tunnels[e], items, broke)]))
  {
  }

  lemma ReplaceCurrentSafe(s: State, i: Incarnation)
    requires Safe(s)
    requires s.incs != []
    requires Grown(s.Cur(), i)
    requires i.s.tconn.Some? ==> i.s.tconn.value < |s.tunnels|
    requires s.inTable || i.s.dead
    requires IncarnationTrue(i, s.agentSent, |s.agentGot|)
    ensures Safe(s.(incs := s.incs[|s.incs| - 1 := i]))
  {
    var later := s.incs[|s.incs| - 1 := i];
    assert AllGrown(s.incs, later);
    HistoriesGrow(s, later);
  }

  /** What a handler must keep for the step to be safe: the incarnation stays true and the frames it
      sends are true. */
  ghost predicate Keeps(i: Incarnation, e: B.Effect, read: Bytes, agentSent: Bytes, delivered: nat) {
    && IncarnationTrue(AfterEffect(i, e, read), agentSent, delivered)
    && (Over(i) ==> Over(AfterEffect(i, e, read)))
    && forall k :: 0 <= k < |e.sent| ==> DownTrue(e.sent[k], AfterEffect(i, e, read))
  }

  lemma ActSafe(s: State, e: B.Effect, at: Option<nat>, read: Bytes)
    requires Safe(s)
    requires s.incs != []
    requires at.Some? ==> at.value < |s.tunnels|
    requires e.s.tconn.Some? ==> e.s.tconn.value < |s.tunnels|
    requires s.inTable || e.s.dead
    requires Keeps(s.Cur(), e, read, s.agentSent, |s.agentGot|)
    ensures Safe(Act(s, e, at, read))
  {
    var i' := AfterEffect(s.Cur(), e, read);
    ReplaceCurrentSafe(s, i');
    var s1 := s.(incs := s.incs[|s.incs| - 1 := i']);
    if at.Some? {
      var items := Tag(|s.incs| - 1, e.sent);
      forall k | 0 <= k < |items| ensures ItemTrue(items[k], s1.incs) {
        assert items[k] == Item(Some(|s.incs| - 1), e.sent[k]);
      }
      PushSafe(s1, at.value, items, e.broke);
    }
  }

  // ---------------------------------------------------------------- the broker's handlers, one by one

  lemma CloseUpstreamKeeps(i: Incarnation, budget: nat, a: Bytes, d: nat)
    requires i.s.connected
    requires !i.s.downClosed ==> i.cutShort || !i.s.reading
    requires IncarnationTrue(i, a, d)
    ensures Keeps(i, B.CloseUpstream(i.s, budget), [], a, d)
  {
    B.TransmitFacts(i.s.(downClosed := true), [CloseDown], budget);
    assert i.got + [] == i.got && i.sent + [] == i.sent;
  }

  lemma DialDoneKeeps(i: Incarnation, flushOk: bool, budget: nat, a: Bytes, d: nat)
    requires !i.s.connected && !i.s.dead
    requires IncarnationTrue(i, a, d)
    requires i.s.preConn != [] && !flushOk ==> i.cutShort
    ensures Keeps(i, B.DialDone(i.s, flushOk, budget), [], a, d)
  {
    assert i.got + [] == i.got && i.sent + [] == i.sent;
    if i.s.preConn == [] {
      assert i.got + i.s.preConn == i.got;
    } else if flushOk {
      FlushKeeps(i, budget, a, d);
    } else {
      var s1 := i.s.(connected := true, preConn := [], watchdog := true);
      assert i.got + s1.preConn <= a;
      B.TransmitFacts(s1.(downClosed := true), [CloseDown], budget);
    }
  }

  lemma FlushKeeps(i: Incarnation, budget: nat, a: Bytes, d: nat)
    requires !i.s.connected && !i.s.dead && i.s.preConn != []
    requires IncarnationTrue(i, a, d)
    ensures Keeps(i, B.DialDone(i.s, true, budget), [], a, d)
  {
    hide B.Transmit;
    assert i.sent + [] == i.sent;
    var s1 := i.s.(connected := true, preConn := [], watchdog := true);
    var written := i.s.upstreamWritten + |i.s.preConn|;
    B.TransmitFacts(s1.(reading := true, upstreamWritten := written, requestOutstanding := true), [Ack(written)],
                    budget);
    assert i.got + i.s.preConn + [] == i.got + i.s.preConn;
  }

  lemma QueueDataKeeps(i: Incarnation, offset: nat, p: Bytes, a: Bytes, d: nat)
    requires IncarnationTrue(i, a, d)
    requires SliceAt(a, offset, p)
    requires !i.s.connected && Accepts(B.Mark(i.s), offset, p)
    ensures Keeps(i, B.Quiet(i.s.(preConn := i.s.preConn + Fresh(B.Mark(i.s), offset, p))), [], a, d)
  {
    assert i.got + [] == i.got && i.sent + [] == i.sent;
    var taken := i.got + i.s.preConn;
    assert |taken| == B.Mark(i.s);
    AcceptExtendsPrefix(taken, a, offset, p);
    assert taken + Fresh(|taken|, offset, p) == i.got + (i.s.preConn + Fresh(|taken|, offset, p));
  }

  lemma WriteDataKeeps(i: Incarnation, offset: nat, p: Bytes, budget: nat, a: Bytes, d: nat)
    requires IncarnationTrue(i, a, d)
    requires SliceAt(a, offset, p)
    requires WritesUpstream(i.s, offset, p)
    ensures Keeps(i, B.OnData(i.s, offset, p, true, budget), [], a, d)
  {
    hide B.Transmit;
    assert i.got + i.s.preConn == i.got;
    AcceptExtendsPrefix(i.got, a, offset, p);
    var added := Fresh(i.s.upstreamWritten, offset, p);
    var written := i.s.upstreamWritten + |added|;
    B.TransmitFacts(i.s.(upstreamWritten := written, requestOutstanding := true, watchdog := true), [Ack(written)],
                    budget);
    var i' := AfterEffect(i, B.OnData(i.s, offset, p, true, budget), []);
    assert i'.got == i.got + added && i'.sent == i.sent && i'.got + i'.s.preConn == i'.got;
  }

  lemma OnDataKeeps(i: Incarnation, offset: nat, p: Bytes, upstreamOk: bool, budget: nat, a: Bytes, d: nat)
    requires IncarnationTrue(i, a, d)
    requires SliceAt(a, offset, p)
    requires WritesUpstream(i.s, offset, p) && !upstreamOk && !i.s.downClosed ==> i.cutShort
    ensures Keeps(i, B.OnData(i.s, offset, p, upstreamOk, budget), [], a, d)
  {
    if WritesUpstream(i.s, offset, p) {
      if upstreamOk { WriteDataKeeps(i, offset, p, budget, a, d); } else { CloseUpstreamKeeps(i, budget, a, d); }
    } else if !i.s.dead && !i.s.connected && Accepts(B.Mark(i.s), offset, p) {
      QueueDataKeeps(i, offset, p, a, d);
    } else {
      QuietKeeps(i, i.s, a, d);
    }
  }

  lemma OnAckKeeps(i: Incarnation, offset: nat, a: Bytes, d: nat)
    requires IncarnationTrue(i, a, d)
    requires offset <= d
    ensures Keeps(i, B.Quiet(B.OnAck(i.s, offset)), [], a, d)
  {
    TrimRetains(i.s.downBuf, i.sent, offset);
    assert i.got + [] == i.got && i.sent + [] == i.sent;
  }

  lemma AttachReplyTrue(i: Incarnation, delivered: nat, a: Bytes, d: nat)
    requires IncarnationTrue(i, a, d)
    ensures forall k :: 0 <= k < |B.AttachReply(i.s, delivered)| ==> DownTrue(B.AttachReply(i.s, delivered)[k], i)
  {
    if i.s.downBuf.Has(delivered) { FromIsTail(i.s.downBuf, i.sent, delivered); }
  }

  lemma OnAttachKeeps(i: Incarnation, tc: nat, delivered: nat, budget: nat, a: Bytes, d: nat)
    requires IncarnationTrue(i, a, d)
    ensures Keeps(i, B.OnAttach(i.s, tc, delivered, budget), [], a, d)
  {
    hide B.Transmit, B.AttachReply;
    var reply := B.AttachReply(i.s, delivered);
    B.TransmitFacts(B.Bind(i.s, tc), reply, budget);
    AttachReplyTrue(i, delivered, a, d);
    var e := B.OnAttach(i.s, tc, delivered, budget);
    var i' := AfterEffect(i, e, []);
    assert i'.got == i.got && i'.sent == i.sent;
    forall k | 0 <= k < |e.sent| ensures DownTrue(e.sent[k], i') { assert e.sent[k] == reply[k]; }
  }

  lemma ProduceKeeps(i: Incarnation, chunk: Bytes, writeOk: bool, a: Bytes, d: nat)
    requires IncarnationTrue(i, a, d)
    requires !i.s.dead && i.s.reading && |chunk| <= i.s.downBuf.Free()
    ensures Keeps(i, B.Produce(i.s, chunk, writeOk), chunk, a, d)
  {
    AddRetains(i.s.downBuf, i.sent, chunk);
    assert i.got + [] == i.got;
    assert (i.sent + chunk)[|i.sent|..|i.sent| + |chunk|] == chunk;
  }

  lemma QuietKeeps(i: Incarnation, b: B.Session, a: Bytes, d: nat)
    requires IncarnationTrue(i, a, d)
    requires b.downBuf == i.s.downBuf && b.preConn == i.s.preConn && b.upstreamWritten == i.s.upstreamWritten
    requires b.connected == i.s.connected && b.reading == i.s.reading && b.downClosed == i.s.downClosed
    requires b.dead ==> i.s.dead || (b.downBuf.bytes == [] && b.downClosed)
    requires i.s.dead ==> b.dead
    ensures Keeps(i, B.Quiet(b), [], a, d)
  {
  }

  // ---------------------------------------------------------------- steps

  lemma CreateSafe(s: State, e: nat)
    requires Safe(s)
    requires s.started && !s.inTable && e < |s.tunnels|
    ensures Safe(Create(s, e))
  {
    HistoriesGrow(s, Create(s, e).incs);
  }

  lemma MarkFailureSafe(s: State, failed: bool)
    requires Safe(s) && s.incs != []
    ensures Safe(MarkFailure(s, failed))
  {
    ReplaceCurrentSafe(s, Failing(s.Cur(), failed));
  }

  lemma HandleSafe(s: State, e: nat, m: Msg, upstreamOk: bool, budget: nat)
    requires Safe(s)
    requires s.started && e < |s.tunnels|
    requires UpTrue(m, s.agentSent, |s.agentGot|)
    ensures Safe(Handle(s, e, m, upstreamOk, budget))
  {
    var a, d := s.agentSent, |s.agentGot|;
    match m {
      case Open =>
        if s.inTable { AttachSafe(s, e, 0, budget); } else { CreateSafe(s, e); }
      case Attach(offset) =>
        if s.inTable {
          AttachSafe(s, e, offset, budget);
        } else if offset == 0 {
          CreateSafe(s, e);
          AttachSafe(Create(s, e), e, 0, budget);
        } else {
          PushSafe(s, e, [Item(None, CloseDown)], false);
        }
      case Data(offset, p) => if s.inTable { DataSafe(s, offset, p, upstreamOk, budget); }
      case Ack(offset) =>
        if s.inTable {
          OnAckKeeps(s.Cur(), offset, a, d);
          ActSafe(s, B.Quiet(B.OnAck(s.Cur().s, offset)), None, []);
        }
      case CloseUp =>
        if s.inTable {
          QuietKeeps(s.Cur(), B.OnSidecarClose(s.Cur().s), a, d);
          ActSafe(s, B.Quiet(B.OnSidecarClose(s.Cur().s)), None, []);
        }
      case _ =>
    }
  }

  lemma AttachSafe(s: State, e: nat, delivered: nat, budget: nat)
    requires Safe(s)
    requires s.inTable && e < |s.tunnels|
    ensures Safe(Act(s, B.OnAttach(s.Cur().s, e, delivered, budget), Some(e), []))
  {
    OnAttachKeeps(s.Cur(), e, delivered, budget, s.agentSent, |s.agentGot|);
    B.TransmitFacts(B.Bind(s.Cur().s, e), B.AttachReply(s.Cur().s, delivered), budget);
    ActSafe(s, B.OnAttach(s.Cur().s, e, delivered, budget), Some(e), []);
  }

  lemma DataSafe(s: State, offset: nat, p: Bytes, upstreamOk: bool, budget: nat)
    requires Safe(s)
    requires s.inTable
    requires SliceAt(s.agentSent, offset, p)
    ensures Safe(Act(MarkFailure(s, WritesUpstream(s.Cur().s, offset, p) && !upstreamOk),
                     B.OnData(s.Cur().s, offset, p, upstreamOk, budget), s.Cur().s.tconn, []))
  {
    var s1 := MarkFailure(s, WritesUpstream(s.Cur().s, offset, p) && !upstreamOk);
    MarkFailureSafe(s, WritesUpstream(s.Cur().s, offset, p) && !upstreamOk);
    OnDataKeeps(s1.Cur(), offset, p, upstreamOk, budget, s.agentSent, |s.agentGot|);
    B.OnDataBinding(s.Cur().s, offset, p, upstreamOk, budget);
    ActSafe(s1, B.OnData(s.Cur().s, offset, p, upstreamOk, budget), s.Cur().s.tconn, []);
  }

  /** The agent's stream grows by bytes of one incarnation, at their own positions. */
  lemma SourceExtends(s: State, inc: nat, offset: nat, p: Bytes)
    requires Safe(s)
    requires inc < |s.incs| && SliceAt(s.incs[inc].sent, offset, p)
    requires Accepts(|s.agentGot|, offset, p)
    ensures var added := Fresh(|s.agentGot|, offset, p);
            SourceTrue(s.agentGot + added, s.src + Times(|added|, Some(inc)), s.incs)
  {
    var added := Fresh(|s.agentGot|, offset, p);
    var got, src, d := s.agentGot + added, s.src + Times(|added|, Some(inc)), |s.agentGot|;
    forall k | 0 <= k < |src| ensures ByteTrue(got[k], k, src[k], s.incs) {
      if k < d {
        assert src[k] == s.src[k] && got[k] == s.agentGot[k];
        assert ByteTrue(s.agentGot[k], k, s.src[k], s.incs);
      } else {
        assert src[k] == Some(inc) && got[k] == p[k - offset] == s.incs[inc].sent[offset..offset + |p|][k - offset];
      }
    }
  }

  /** The state after `added` bytes of incarnation `inc` have been written to the agent. */
  function Delivered(s: State, inc: Option<nat>, added: Bytes): State {
    s.(c := s.c.(downDelivered := s.c.downDelivered + |added|), agentGot := s.agentGot + added,
       src := s.src + Times(|added|, inc))
  }

  lemma DeliveredSafe(s: State, inc: Option<nat>, added: Bytes)
    requires Safe(s)
    requires s.started
    requires SourceTrue(s.agentGot + added, s.src + Times(|added|, inc), s.incs)
    ensures Safe(Delivered(s, inc, added))
    ensures var s' := Delivered(s, inc, added);
            s'.started && s'.agentSent == s.agentSent && |s'.agentGot| == |s.agentGot| + |added| &&
            (s'.linked ==> s'.tunnels != [])
  {
  }

  /** What the sidecar does with a DATA frame. */
  lemma DispatchData(s: State, inc: Option<nat>, offset: nat, p: Bytes, agentOk: bool)
    requires s.linked ==> s.tunnels != []
    requires !s.c.dead
    ensures var s' := Dispatch(s, Item(inc, Data(offset, p)), agentOk);
            if !Accepts(s.c.downDelivered, offset, p) then s' == s
            else if !agentOk || s.c.downClosed then s' == s.(c := s.c.(dead := true))
            else
              var added := Fresh(s.c.downDelivered, offset, p);
              s' == SendUp(Delivered(s, inc, added), [Ack(s.c.downDelivered + |added|)])
  {
    assert s.agentGot + [] == s.agentGot;
    assert s.src + Times(0, inc) == s.src;
  }

  lemma ClientDeadSafe(s: State)
    requires Safe(s) && s.started
    ensures Safe(s.(c := s.c.(dead := true)))
  {
  }

  lemma DeliverSafe(s: State, inc: nat, offset: nat, p: Bytes, agentOk: bool)
    requires Safe(s)
    requires s.started && !s.c.dead
    requires inc < |s.incs| && SliceAt(s.incs[inc].sent, offset, p)
    ensures Safe(Dispatch(s, Item(Some(inc), Data(offset, p)), agentOk))
  {
    hide Dispatch, SendUp, Safe, Delivered, SourceTrue, Times, SliceAt;
    SafeFacts(s);
    var d := |s.agentGot|;
    DispatchData(s, Some(inc), offset, p, agentOk);
    ClientDeadSafe(s);
    if Accepts(d, offset, p) && agentOk && !s.c.downClosed {
      var added := Fresh(d, offset, p);
      SourceExtends(s, inc, offset, p);
      DeliveredSafe(s, Some(inc), added);
      SendUpSafe(Delivered(s, Some(inc), added), [Ack(d + |added|)]);
    }
  }

  lemma ReattachedSafe(s: State, offset: nat, synced: Option<nat>)
    requires Safe(s)
    requires s.started
    ensures var o := C.OnAttachOk(s.c, offset); Safe(SendUp(s.(c := o.c, synced := synced), o.send))
  {
    TrimRetains(s.c.upBuf, s.agentSent, offset);
    var o := C.OnAttachOk(s.c, offset);
    if o.c.upBuf.Has(offset) { FromIsTail(o.c.upBuf, s.agentSent, offset); }
    SendUpSafe(s.(c := o.c, synced := synced), o.send);
  }

  lemma DispatchSafe(s: State, item: Item, agentOk: bool)
    requires Safe(s)
    requires s.started
    requires ItemTrue(item, s.incs)
    ensures Safe(Dispatch(s, item, agentOk))
  {
    hide SendUp, C.OnAttachOk, C.DeliverDown;
    if !s.c.dead {
      match item.msg {
        case AttachOk(offset) => ReattachedSafe(s, offset, if C.Serves(s.c, offset) then item.inc else None);
        case Data(offset, p) => DeliverSafe(s, item.inc.value, offset, p, agentOk);
        case Ack(offset) => TrimRetains(s.c.upBuf, s.agentSent, offset);
        case _ =>
      }
    }
  }

  lemma WriteSafe(s: State, chunk: Bytes)
    requires Safe(s)
    requires Enabled(s, AgentWrites(chunk))
    ensures Safe(Wrote(s, chunk))
  {
    var o := C.WriteUp(s.c, chunk);
    var s1 := s.(c := o.c, agentSent := s.agentSent + chunk);
    AddRetains(s.c.upBuf, s.agentSent, chunk);
    forall e | 0 <= e < |s.tunnels| ensures TunnelTrue(s.tunnels[e], s1.agentSent, |s.agentGot|, s.incs) {
      TunnelTrueGrows(s.tunnels[e], s.agentSent, s1.agentSent, |s.agentGot|, |s.agentGot|, s.incs, s.incs);
    }
    assert Safe(s1);
    assert s1.agentSent[|s.agentSent|..|s.agentSent| + |chunk|] == chunk;
    SendUpSafe(s1, o.send);
  }

  lemma StartSafe(s: State)
    requires Safe(s)
    requires Enabled(s, OpenSession)
    ensures Safe(Started(s))
  {
  }

  lemma FinishSafe(s: State)
    requires Safe(s)
    requires Enabled(s, AgentCloses)
    ensures Safe(FinishedWriting(s))
  {
    SendUpSafe(s.(c := C.CloseUp(s.c).c), C.CloseUp(s.c).send);
  }

  lemma ConnectSafe(s: State)
    requires Safe(s)
    requires Enabled(s, Connect)
    ensures Safe(Connected(s))
  {
    var s' := Connected(s);
    forall e | 0 <= e < |s'.tunnels| ensures TunnelTrue(s'.tunnels[e], s.agentSent, |s.agentGot|, s.incs) {
      if e < |s.tunnels| { assert s'.tunnels[e] == s.tunnels[e]; }
    }
  }

  lemma SendAttachSafe(s: State)
    requires Safe(s)
    requires Enabled(s, SendAttach)
    ensures Safe(SentAttach(s))
  {
    SendUpSafe(s.(attachDue := false), [C.AttachFrame(s.c)]);
  }

  /** Frames leave a tunnel at its front or are lost at its end; what stays is true. */
  lemma ShrinkSafe(s: State, e: nat, t: Tunnel)
    requires Safe(s)
    requires e < |s.tunnels|
    requires t.up <= s.tunnels[e].up || (s.tunnels[e].up != [] && t.up == s.tunnels[e].up[1..])
    requires t.down <= s.tunnels[e].down || (s.tunnels[e].down != [] && t.down == s.tunnels[e].down[1..])
    ensures Safe(s.(tunnels := s.tunnels[e := t]))
  {
    assert TunnelTrue(s.tunnels[e], s.agentSent, |s.agentGot|, s.incs);
    assert TunnelTrue(t, s.agentSent, |s.agentGot|, s.incs);
  }

  lemma ClientFrameSafe(s: State, agentOk: bool)
    requires Safe(s)
    requires Enabled(s, ClientReads(agentOk))
    ensures Safe(ClientRead(s, agentOk))
  {
    var t := s.Newest();
    assert TunnelTrue(t, s.agentSent, |s.agentGot|, s.incs);
    ShrinkSafe(s, |s.tunnels| - 1, t.(down := t.down[1..]));
    DispatchSafe(PopDown(s), t.down[0], agentOk);
  }

  lemma BrokerFrameSafe(s: State, e: nat, upstreamOk: bool, budget: nat)
    requires Safe(s)
    requires Enabled(s, BrokerReads(e, upstreamOk, budget))
    ensures Safe(BrokerRead(s, e, upstreamOk, budget))
  {
    var t := s.tunnels[e];
    assert TunnelTrue(t, s.agentSent, |s.agentGot|, s.incs);
    ShrinkSafe(s, e, t.(up := t.up[1..]));
    HandleSafe(PopUp(s, e), e, t.up[0], upstreamOk, budget);
  }

  lemma DropSafe(s: State, e: nat)
    requires Safe(s)
    requires Enabled(s, BrokerDrops(e))
    ensures Safe(Dropped(s, e))
  {
    hide Act;
    ShrinkSafe(s, e, s.tunnels[e].(brokerOpen := false));
    if s.incs != [] {
      QuietKeeps(s.Cur(), B.Detach(s.Cur().s, e).s, s.agentSent, |s.agentGot|);
      ActSafe(ShutTunnel(s, e), B.Detach(s.Cur().s, e), None, []);
    }
  }

  lemma DialSafe(s: State, flushOk: bool, budget: nat)
    requires Safe(s)
    requires Enabled(s, DialDone(flushOk, budget))
    ensures Safe(Dialled(s, flushOk, budget))
  {
    var b := s.Cur().s;
    var failed := b.preConn != [] && !flushOk;
    MarkFailureSafe(s, failed);
    DialDoneKeeps(MarkFailure(s, failed).Cur(), flushOk, budget, s.agentSent, |s.agentGot|);
    B.DialDoneBinding(b, flushOk, budget);
    ActSafe(MarkFailure(s, failed), B.DialDone(b, flushOk, budget), b.tconn, []);
  }

  lemma DialRefusedSafe(s: State, budget: nat)
    requires Safe(s)
    requires Enabled(s, DialFails(budget))
    ensures Safe(DialRefused(s, budget))
  {
    DialFailedKeeps(s.Cur(), budget, s.agentSent, |s.agentGot|);
    B.TransmitFacts(s.Cur().s, [CloseDown], budget);
    ActSafe(s, B.DialFailed(s.Cur().s, budget), s.Cur().s.tconn, []);
  }

  lemma ProduceSafe(s: State, chunk: Bytes, writeOk: bool)
    requires Safe(s)
    requires Enabled(s, UpstreamSends(chunk, writeOk))
    ensures Safe(Produced(s, chunk, writeOk))
  {
    ProduceKeeps(s.Cur(), chunk, writeOk, s.agentSent, |s.agentGot|);
    ActSafe(s, B.Produce(s.Cur().s, chunk, writeOk), s.Cur().s.tconn, chunk);
  }

  lemma EofSafe(s: State, budget: nat)
    requires Safe(s)
    requires Enabled(s, UpstreamEof(budget))
    ensures Safe(Ended(s, budget))
  {
    EofKeeps(s.Cur(), budget, s.agentSent, |s.agentGot|);
    B.CloseBinding(s.Cur().s.(reading := false), budget);
    ActSafe(s, B.UpstreamEof(s.Cur().s, budget), s.Cur().s.tconn, []);
  }

  lemma FireSafe(s: State)
    requires Safe(s)
    requires Enabled(s, WatchdogFires)
    ensures Safe(Fired(s))
  {
    QuietKeeps(s.Cur(), s.Cur().s.(watchdog := false), s.agentSent, |s.agentGot|);
    ActSafe(s, B.WatchdogFires(s.Cur().s), None, []);
  }

  lemma DialFailedKeeps(i: Incarnation, budget: nat, a: Bytes, d: nat)
    requires !i.s.connected && !i.s.dead
    requires IncarnationTrue(i, a, d)
    ensures Keeps(i, B.DialFailed(i.s, budget), [], a, d)
  {
    B.TransmitFacts(i.s, [CloseDown], budget);
    assert i.got + [] == i.got && i.sent + [] == i.sent;
  }

  lemma EofKeeps(i: Incarnation, budget: nat, a: Bytes, d: nat)
    requires i.s.reading
    requires IncarnationTrue(i, a, d)
    ensures Keeps(i, B.UpstreamEof(i.s, budget), [], a, d)
  {
    CloseUpstreamKeeps(i.(s := i.s.(reading := false)), budget, a, d);
  }

  lemma CutUpSafe(s: State, e: nat, keep: nat)
    requires Safe(s)
    requires Enabled(s, CutUp(e, keep))
    ensures Safe(LostUp(s, e, keep))
  {
    ShrinkSafe(s, e, s.tunnels[e].(up := s.tunnels[e].up[..keep], upCut := true));
  }

  lemma CutDownSafe(s: State, e: nat, keep: nat)
    requires Safe(s)
    requires Enabled(s, CutDown(e, keep))
    ensures Safe(LostDown(s, e, keep))
  {
    ShrinkSafe(s, e, s.tunnels[e].(down := s.tunnels[e].down[..keep], downCut := true));
  }

  lemma FlagsSafe(s: State)
    requires Safe(s)
    ensures s.linked ==> Safe(s.(linked := false, attachDue := false))
    ensures s.inTable && s.Cur().s.dead ==> Safe(s.(inTable := false))
  {
  }

  /** Every step keeps the invariant. */
  lemma StepSafe(s: State, a: Action)
    requires Safe(s)
    requires Enabled(s, a)
    ensures Safe(Step(s, a))
  {
    hide Started, Wrote, FinishedWriting, Connected, SentAttach, ClientRead, LostUp, LostDown, BrokerRead;
    hide Dropped, Dialled, DialRefused, Produced, Ended, Fired, Safe;
    match a {
      case OpenSession => StartSafe(s);
      case AgentWrites(chunk) => WriteSafe(s, chunk);
      case AgentCloses => FinishSafe(s);
      case Connect => ConnectSafe(s);
      case SendAttach => SendAttachSafe(s);
      case Disconnect => FlagsSafe(s);
      case ClientReads(agentOk) => ClientFrameSafe(s, agentOk);
      case CutUp(e, keep) => CutUpSafe(s, e, keep);
      case CutDown(e, keep) => CutDownSafe(s, e, keep);
      case BrokerReads(e, upstreamOk, budget) => BrokerFrameSafe(s, e, upstreamOk, budget);
      case BrokerDrops(e) => DropSafe(s, e);
      case DialDone(flushOk, budget) => DialSafe(s, flushOk, budget);
      case DialFails(budget) => DialRefusedSafe(s, budget);
      case UpstreamSends(chunk, writeOk) => ProduceSafe(s, chunk, writeOk);
      case UpstreamEof(budget) => EofSafe(s, budget);
      case WatchdogFires => FireSafe(s);
      case Remove => FlagsSafe(s);
    }
  }

  lemma {:induction false} RunSafe(s: State, run: seq<Action>)
    requires Safe(s)
    requires Legal(s, run)
    ensures Safe(Exec(s, run))
    decreases |run|
  {
    if run != [] {
      StepSafe(s, run[0]);
      RunSafe(Step(s, run[0]), run[1..]);
    }
  }

  /** In every reachable state, over any cuts, lost suffixes, replays, stale frames and recreated
      sessions: each incarnation's upstream has been given a prefix of what the agent sent, and each
      byte the agent received is the byte its incarnation read from upstream at the same position. */
  lemma ExactlyOnceInOrder(upMax: nat, downMax: nat, run: seq<Action>)
    requires Legal(Init(upMax, downMax), run)
    ensures var s := Exec(Init(upMax, downMax), run);
            && (forall i :: 0 <= i < |s.incs| ==> s.incs[i].got <= s.agentSent)
            && SourceTrue(s.agentGot, s.src, s.incs)
  {
    RunSafe(Init(upMax, downMax), run);
    var s := Exec(Init(upMax, downMax), run);
    forall i | 0 <= i < |s.incs| ensures s.incs[i].got <= s.agentSent {
      assert IncarnationTrue(s.incs[i], s.agentSent, |s.agentGot|);
    }
  }
}
