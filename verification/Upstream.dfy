/** The upstream direction: in its first incarnation the sidecar never drops a byte the broker still
    needs, and in any, once a tunnel's attach exchange is over and was served, the frames in flight lead
    the broker exactly to the end of what the agent sent. */
module Upstream {
  import opened Streams
  import opened ReplayBuffers
  import opened Messages
  import opened Protocol
  import opened Safety
  import C = ClientSessions
  import B = BrokerSessions

  // ---------------------------------------------------------------- acknowledgements in flight

  predicate IsAck(m: Msg) { m.Ack? || m.AttachOk? }

  /** The acknowledged offsets of a queue never fall, starting from `lo`. */
  ghost predicate AcksFrom(q: seq<Item>, lo: nat)
    decreases |q|
  {
    q == [] ||
    if IsAck(q[0].msg) then lo <= q[0].msg.offset && AcksFrom(q[1..], q[0].msg.offset) else AcksFrom(q[1..], lo)
  }

  function AckTop(q: seq<Item>, lo: nat): nat
    decreases |q|
  {
    if q == [] then lo else AckTop(q[1..], if IsAck(q[0].msg) then q[0].msg.offset else lo)
  }

  lemma {:induction false} AcksAppend(q: seq<Item>, r: seq<Item>, lo: nat)
    ensures AcksFrom(q + r, lo) <==> AcksFrom(q, lo) && AcksFrom(r, AckTop(q, lo))
    ensures AckTop(q + r, lo) == AckTop(r, AckTop(q, lo))
    decreases |q|
  {
    if q == [] {
      assert q + r == r;
    } else {
      assert (q + r)[0] == q[0] && (q + r)[1..] == q[1..] + r;
      AcksAppend(q[1..], r, if IsAck(q[0].msg) then q[0].msg.offset else lo);
    }
  }

  lemma {:induction false} AcksLower(q: seq<Item>, lo: nat, lo': nat)
    requires AcksFrom(q, lo) && lo' <= lo
    ensures AcksFrom(q, lo') && lo' <= AckTop(q, lo') <= AckTop(q, lo)
    decreases |q|
  {
    if q != [] {
      if IsAck(q[0].msg) { AcksLower(q[1..], q[0].msg.offset, q[0].msg.offset); } else { AcksLower(q[1..], lo, lo'); }
    }
  }

  lemma AcksPrefix(q: seq<Item>, k: nat, lo: nat)
    requires k <= |q| && AcksFrom(q, lo)
    ensures AcksFrom(q[..k], lo) && AckTop(q[..k], lo) <= AckTop(q, lo)
  {
    assert q == q[..k] + q[k..];
    AcksAppend(q[..k], q[k..], lo);
    AcksLower(q[k..], AckTop(q[..k], lo), AckTop(q[..k], lo));
  }

  /** Frames that acknowledge nothing but `w`. */
  ghost predicate AcksAre(msgs: seq<Msg>, w: nat) {
    forall k :: 0 <= k < |msgs| ==> IsAck(msgs[k]) ==> msgs[k].offset == w
  }

  lemma {:induction false} AcksAreFrom(inc: nat, msgs: seq<Msg>, w: nat, lo: nat)
    requires AcksAre(msgs, w) && lo <= w
    ensures AcksFrom(Tag(inc, msgs), lo) && AckTop(Tag(inc, msgs), lo) <= w
    decreases |msgs|
  {
    if msgs != [] {
      var q := Tag(inc, msgs);
      assert q[1..] == Tag(inc, msgs[1..]);
      assert AcksAre(msgs[1..], w);
      AcksAreFrom(inc, msgs[1..], w, if IsAck(msgs[0]) then w else lo);
    }
  }

  // ---------------------------------------------------------------- data in flight

  /** Where the broker, standing at `m`, stands after taking all frames of the queue. */
  function ReachUp(q: seq<Msg>, m: nat): nat
    decreases |q|
  {
    if q == [] then m else ReachUp(q[1..], if q[0].Data? then NextMark(m, q[0].offset, q[0].payload) else m)
  }

  lemma {:induction false} ReachUpAppend(q: seq<Msg>, r: Msg, m: nat)
    ensures ReachUp(q + [r], m) == if r.Data? then NextMark(ReachUp(q, m), r.offset, r.payload) else ReachUp(q, m)
    decreases |q|
  {
    if q == [] {
      assert q + [r] == [r] && [r][1..] == [];
    } else {
      assert (q + [r])[0] == q[0] && (q + [r])[1..] == q[1..] + [r];
      ReachUpAppend(q[1..], r, if q[0].Data? then NextMark(m, q[0].offset, q[0].payload) else m);
    }
  }

  /** A receiver further on ends up at least as far, and none ends beyond the agent's stream. */
  lemma {:induction false} ReachUpMonotone(q: seq<Msg>, m: nat, m': nat, agentSent: Bytes, d: nat)
    requires m <= m' <= |agentSent|
    requires forall k :: 0 <= k < |q| ==> UpTrue(q[k], agentSent, d)
    ensures m <= ReachUp(q, m) <= ReachUp(q, m') <= |agentSent|
    decreases |q|
  {
    if q != [] {
      assert UpTrue(q[0], agentSent, d);
      var step := (x: nat) => if q[0].Data? then NextMark(x, q[0].offset, q[0].payload) else x;
      assert forall k :: 0 <= k < |q[1..]| ==> q[1..][k] == q[k + 1];
      ReachUpMonotone(q[1..], step(m), step(m'), agentSent, d);
    }
  }

  /** No DATA frame in the queue carries the byte at `m`. */
  ghost predicate Misses(q: seq<Msg>, m: nat) {
    forall k :: 0 <= k < |q| && q[k].Data? ==> m < q[k].offset || q[k].offset + |q[k].payload| <= m
  }

  lemma {:induction false} MissedStays(q: seq<Msg>, m: nat)
    requires Misses(q, m)
    ensures ReachUp(q, m) == m
    decreases |q|
  {
    if q != [] {
      assert q[0].Data? ==> m < q[0].offset || q[0].offset + |q[0].payload| <= m;
      assert forall k :: 0 <= k < |q[1..]| ==> q[1..][k] == q[k + 1];
      MissedStays(q[1..], m);
    }
  }

  // ---------------------------------------------------------------- the invariant

  function Written(s: State): nat { if s.incs == [] then 0 else |s.Cur().got| }

  function MarkOf(s: State): nat { if s.incs == [] then 0 else B.Mark(s.Cur().s) }

  ghost predicate AcksHold(down: seq<Item>, base: nat, written: nat) {
    AcksFrom(down, base) && AckTop(down, base) <= written
  }

  /** The sidecar has dropped nothing that the broker has not written, and nothing in flight will
      make it do so. */
  ghost predicate Retaining(s: State) {
    |s.incs| <= 1 ==>
      && s.c.upBuf.base <= Written(s)
      && (s.tunnels != [] ==> AcksHold(s.Newest().down, s.c.upBuf.base, Written(s)))
  }

  /** The incarnation that is current, or that the first OPEN will create. */
  function Latest(s: State): nat { if s.incs == [] then 0 else |s.incs| - 1 }

  /** The upstream half has been (re)started with the current incarnation on the newest tunnel, and neither
      the tunnel nor a write to upstream has failed since. */
  ghost predicate Running(s: State) {
    && s.linked && s.synced == Some(Latest(s)) && s.tunnels != [] && !s.Newest().upCut
    && (s.incs != [] ==> s.inTable && !s.Cur().s.dead)
  }

  ghost predicate Leads(up: seq<Msg>, mark: nat, sent: nat, none: bool) {
    && ReachUp(up, mark) == sent
    && (none ==> up != [] && up[0] == Open)
  }

  /** No incarnation that is yet to come has been synchronised with. */
  predicate Known(s: State) { s.synced.Some? ==> s.synced.value <= Latest(s) }

  ghost predicate Synchronised(s: State) {
    && Known(s)
    && (Running(s) ==> Leads(s.Newest().up, MarkOf(s), |s.agentSent|, s.incs == []))
  }

  ghost predicate Upright(s: State) { Safe(s) && Retaining(s) && Synchronised(s) }

  // ---------------------------------------------------------------- session steps

  lemma RetainAct(s: State, e: B.Effect, at: Option<nat>, read: Bytes)
    requires Retaining(s) && s.incs != []
    requires at.Some? ==> at.value < |s.tunnels|
    requires AcksAre(e.sent, |s.Cur().got| + |e.upstream|)
    ensures Retaining(Act(s, e, at, read))
  {
    hide Act, AcksFrom, AckTop;
    ActChanges(s, e, at, read);
    if |s.incs| <= 1 && at == Some(|s.tunnels| - 1) {
      var q, base := s.Newest().down, s.c.upBuf.base;
      var w := |s.Cur().got| + |e.upstream|;
      AcksAreFrom(|s.incs| - 1, e.sent, w, AckTop(q, base));
      AcksAppend(q, Tag(|s.incs| - 1, e.sent), base);
    }
  }

  lemma SyncAct(s: State, e: B.Effect, at: Option<nat>, read: Bytes)
    requires Synchronised(s) && s.incs != []
    requires at.Some? ==> at.value < |s.tunnels|
    requires !e.s.dead && s.synced.Some? ==> !s.Cur().s.dead && B.Mark(e.s) == B.Mark(s.Cur().s)
    ensures Synchronised(Act(s, e, at, read))
  {
    hide Act, Leads;
    ActChanges(s, e, at, read);
  }

  lemma TransmitAcks(b: B.Session, msgs: seq<Msg>, budget: nat, w: nat)
    requires AcksAre(msgs, w)
    ensures AcksAre(B.Transmit(b, msgs, budget).sent, w)
  {
  }

  /** What every handler acknowledges is what its upstream holds afterwards; and closing changes
      nothing about what was taken. */
  lemma CloseTakes(b: B.Session, budget: nat, w: nat)
    ensures var e := B.CloseUpstream(b, budget);
            AcksAre(e.sent, w) && e.upstream == [] && B.Mark(e.s) == B.Mark(b) && (b.dead ==> e.s.dead)
  {
    B.TransmitFacts(b.(downClosed := true), [CloseDown], budget);
    TransmitAcks(b.(downClosed := true), [CloseDown], budget, w);
  }

  lemma DialTakes(i: Incarnation, flushOk: bool, budget: nat, a: Bytes, d: nat)
    requires IncarnationTrue(i, a, d) && !i.s.connected && !i.s.dead
    ensures var e := B.DialDone(i.s, flushOk, budget);
            && AcksAre(e.sent, |i.got| + |e.upstream|)
            && (flushOk || i.s.preConn == [] ==> B.Mark(e.s) == B.Mark(i.s))
  {
    var s1 := i.s.(connected := true, preConn := [], watchdog := true);
    CloseTakes(s1, budget, |i.got|);
    var written := i.s.upstreamWritten + |i.s.preConn|;
    var s2 := s1.(reading := true, upstreamWritten := written, requestOutstanding := true);
    B.TransmitFacts(s2, [Ack(written)], budget);
    TransmitAcks(s2, [Ack(written)], budget, written);
  }

  /** A DATA frame moves the mark by the receiver's rule, unless the upstream write fails. */
  lemma DataTakes(i: Incarnation, offset: nat, p: Bytes, upstreamOk: bool, budget: nat, a: Bytes, d: nat)
    requires IncarnationTrue(i, a, d)
    ensures var e := B.OnData(i.s, offset, p, upstreamOk, budget);
            && AcksAre(e.sent, |i.got| + |e.upstream|)
            && (!i.s.dead && (upstreamOk || !WritesUpstream(i.s, offset, p)) ==>
                  B.Mark(e.s) == NextMark(B.Mark(i.s), offset, p))
            && (i.s.dead ==> e.s.dead)
  {
    if WritesUpstream(i.s, offset, p) {
      CloseTakes(i.s, budget, |i.got|);
      var written := i.s.upstreamWritten + |Fresh(i.s.upstreamWritten, offset, p)|;
      var s1 := i.s.(upstreamWritten := written, requestOutstanding := true, watchdog := true);
      B.TransmitFacts(s1, [Ack(written)], budget);
      TransmitAcks(s1, [Ack(written)], budget, written);
    }
  }

  lemma AttachTakes(i: Incarnation, e: nat, delivered: nat, budget: nat, a: Bytes, d: nat)
    requires IncarnationTrue(i, a, d)
    ensures var eff := B.OnAttach(i.s, e, delivered, budget);
            AcksAre(eff.sent, |i.got| + |eff.upstream|) && B.Mark(eff.s) == B.Mark(i.s) && (i.s.dead ==> eff.s.dead)
  {
    hide B.AttachReply, IncarnationTrue;
    ReplyAcks(i, delivered, a, d);
    B.TransmitFacts(B.Bind(i.s, e), B.AttachReply(i.s, delivered), budget);
    TransmitAcks(B.Bind(i.s, e), B.AttachReply(i.s, delivered), budget, |i.got|);
  }

  lemma ReplyAcks(i: Incarnation, delivered: nat, a: Bytes, d: nat)
    requires IncarnationTrue(i, a, d)
    ensures AcksAre(B.AttachReply(i.s, delivered), |i.got|)
  {
  }

  /** A step of the current incarnation that takes nothing from the sidecar. */
  lemma IdleAct(s: State, e: B.Effect, at: Option<nat>, read: Bytes)
    requires Retaining(s) && Synchronised(s) && s.incs != []
    requires at.Some? ==> at.value < |s.tunnels|
    requires AcksAre(e.sent, |s.Cur().got| + |e.upstream|)
    requires !e.s.dead && s.synced.Some? ==> !s.Cur().s.dead && B.Mark(e.s) == B.Mark(s.Cur().s)
    ensures Retaining(Act(s, e, at, read)) && Synchronised(Act(s, e, at, read))
  {
    RetainAct(s, e, at, read);
    SyncAct(s, e, at, read);
  }

  lemma MarkFailureUpright(s: State, failed: bool)
    requires Upright(s) && s.incs != []
    ensures Upright(MarkFailure(s, failed))
  {
    hide Safe, AcksHold, Leads;
    MarkFailureSafe(s, failed);
  }

  // ---------------------------------------------------------------- the broker reads a frame

  /** Running on from `m`, the broker gets to the end of the agent's stream. */
  ghost predicate ReachesEnd(s: State, m: nat) {
    Running(s) ==> ReachUp(s.Newest().up, m) == |s.agentSent|
  }

  lemma ReachesLater(s: State, m: nat, m': nat)
    requires Safe(s) && ReachesEnd(s, m) && m <= m' <= |s.agentSent|
    ensures ReachesEnd(s, m')
  {
    if Running(s) {
      assert TunnelTrue(s.Newest(), s.agentSent, |s.agentGot|, s.incs);
      ReachUpMonotone(s.Newest().up, m, m', s.agentSent, |s.agentGot|);
    }
  }

  lemma MarkWithin(s: State)
    requires Safe(s)
    ensures MarkOf(s) <= |s.agentSent| && Written(s) <= MarkOf(s)
  {
  }

  /** A step of the current incarnation that takes at least what the queue's start `m` asks for. */
  lemma ActReaches(s: State, e: B.Effect, at: Option<nat>, read: Bytes, m: nat)
    requires ReachesEnd(s, m) && s.incs != []
    requires at.Some? ==> at.value < |s.tunnels|
    requires Safe(Act(s, e, at, read))
    requires !e.s.dead && s.synced.Some? ==> !s.Cur().s.dead && m <= B.Mark(e.s)
    ensures var s' := Act(s, e, at, read); ReachesEnd(s', MarkOf(s'))
  {
    hide Act, Safe, ReachUp;
    ActChanges(s, e, at, read);
    var s' := Act(s, e, at, read);
    MarkWithin(s');
    if Running(s') { ReachesLater(s', m, MarkOf(s')); }
  }

  lemma CreateReaches(s: State, e: nat, m: nat)
    requires Safe(s) && Known(s) && ReachesEnd(s, m) && !s.inTable && e < |s.tunnels|
    requires s.incs == [] ==> m == 0
    ensures ReachesEnd(Create(s, e), 0) && MarkOf(Create(s, e)) == 0
    ensures Create(s, e).Cur().s.dead == false
  {
  }

  lemma AttachReaches(s: State, e: nat, d: nat, budget: nat, m: nat)
    requires Safe(s) && ReachesEnd(s, m) && s.inTable && e < |s.tunnels| && m <= MarkOf(s)
    ensures var s' := Act(s, B.OnAttach(s.Cur().s, e, d, budget), Some(e), []); ReachesEnd(s', MarkOf(s'))
  {
    hide Act, Safe, B.OnAttach;
    SafeFacts(s);
    CurrentTrue(s);
    AttachTakes(s.Cur(), e, d, budget, s.agentSent, |s.agentGot|);
    AttachSafe(s, e, d, budget);
    AttachStaysAlive(s.Cur().s, e, d, budget);
    ActReaches(s, B.OnAttach(s.Cur().s, e, d, budget), Some(e), [], m);
  }

  lemma AttachStaysAlive(b: B.Session, e: nat, d: nat, budget: nat)
    ensures B.OnAttach(b, e, d, budget).s.dead == b.dead
  {
    B.TransmitFacts(B.Bind(b, e), B.AttachReply(b, d), budget);
  }

  lemma DataReaches(s: State, offset: nat, p: Bytes, upstreamOk: bool, budget: nat, m: nat)
    requires Safe(s) && ReachesEnd(s, m) && s.inTable
    requires SliceAt(s.agentSent, offset, p)
    requires m <= NextMark(MarkOf(s), offset, p)
    ensures var s' := Act(MarkFailure(s, WritesUpstream(s.Cur().s, offset, p) && !upstreamOk),
                          B.OnData(s.Cur().s, offset, p, upstreamOk, budget), s.Cur().s.tconn, []);
            ReachesEnd(s', MarkOf(s'))
  {
    hide Act, Safe, B.OnData, ReachUp;
    SafeFacts(s);
    CurrentTrue(s);
    var b := s.Cur().s;
    var failed := WritesUpstream(b, offset, p) && !upstreamOk;
    DataSafe(s, offset, p, upstreamOk, budget);
    DataTakes(s.Cur(), offset, p, upstreamOk, budget, s.agentSent, |s.agentGot|);
    ActReaches(MarkFailure(s, failed), B.OnData(b, offset, p, upstreamOk, budget), b.tconn, [], m);
  }

  lemma QuietReaches(s: State, b: B.Session, m: nat)
    requires ReachesEnd(s, m) && s.incs != [] && m <= MarkOf(s)
    requires Safe(SetSession(s, b))
    requires B.Mark(b) == MarkOf(s) && (s.Cur().s.dead ==> b.dead)
    ensures ReachesEnd(SetSession(s, b), MarkOf(SetSession(s, b)))
  {
    ActReaches(s, B.Quiet(b), None, [], m);
  }

  /** The position that the frame gives the broker, if it takes it. */
  function Ahead(m: Msg, mark: nat): nat { if m.Data? then NextMark(mark, m.offset, m.payload) else mark }

  lemma HandleReaches(s: State, e: nat, msg: Msg, upstreamOk: bool, budget: nat, m: nat)
    requires Safe(s) && Known(s) && s.started && e < |s.tunnels|
    requires UpTrue(msg, s.agentSent, |s.agentGot|)
    requires ReachesEnd(s, m) && m <= Ahead(msg, MarkOf(s)) && (s.incs == [] ==> m == 0)
    ensures var s' := Handle(s, e, msg, upstreamOk, budget); ReachesEnd(s', MarkOf(s'))
  {
    hide Act, SetSession, Safe, ReachUp, B.OnData, B.OnAttach, MarkFailure;
    SafeFacts(s);
    MarkWithin(s);
    HandleSafe(s, e, msg, upstreamOk, budget);
    match msg {
      case Open =>
        if s.inTable { AttachReaches(s, e, 0, budget, m); } else { CreateReaches(s, e, m); }
      case Attach(d) =>
        if s.inTable {
          AttachReaches(s, e, d, budget, m);
        } else if d == 0 {
          CreateReaches(s, e, m);
          CreateSafe(s, e);
          AttachReaches(Create(s, e), e, 0, budget, 0);
        } else {
          ReachesLater(s, m, MarkOf(s));
          LostReaches(s, e);
        }
      case Data(offset, p) => if s.inTable { DataReaches(s, offset, p, upstreamOk, budget, m); }
      case Ack(offset) =>
        ReachesLater(s, m, MarkOf(s));
        if s.inTable { QuietReaches(s, B.OnAck(s.Cur().s, offset), m); }
      case CloseUp =>
        ReachesLater(s, m, MarkOf(s));
        if s.inTable { QuietReaches(s, B.OnSidecarClose(s.Cur().s), m); }
      case _ => ReachesLater(s, m, MarkOf(s));
    }
  }

  lemma LostReaches(s: State, e: nat)
    requires ReachesEnd(s, MarkOf(s)) && e < |s.tunnels|
    ensures var s' := s.(tunnels := s.tunnels[e := PushDown(s.tunnels[e], [Item(None, CloseDown)], false)]);
            ReachesEnd(s', MarkOf(s'))
  {
  }

  lemma BrokerReadSync(s: State, e: nat, upstreamOk: bool, budget: nat)
    requires Upright(s)
    requires Enabled(s, BrokerReads(e, upstreamOk, budget))
    ensures Synchronised(BrokerRead(s, e, upstreamOk, budget))
  {
    hide Handle, Safe, Leads, ReachesEnd;
    var s1, msg := PopUp(s, e), s.tunnels[e].up[0];
    StartedByFrames(s, e);
    FrontUpTrue(s, e);
    ShrinkSafe(s, e, s.tunnels[e].(up := s.tunnels[e].up[1..]));
    SafeFacts(s1);
    PopReaches(s, e);
    HandleReaches(s1, e, msg, upstreamOk, budget, StartsAt(s, e));
    HandleIncs(s1, e, msg, upstreamOk, budget);
    SyncAfter(s, e, BrokerRead(s, e, upstreamOk, budget));
  }

  lemma FrontUpTrue(s: State, e: nat)
    requires Safe(s) && e < |s.tunnels| && s.tunnels[e].up != []
    ensures UpTrue(s.tunnels[e].up[0], s.agentSent, |s.agentGot|)
  {
    assert TunnelTrue(s.tunnels[e], s.agentSent, |s.agentGot|, s.incs);
  }

  /** Where the newest queue starts from once the front frame of tunnel `e` has been taken off. */
  function StartsAt(s: State, e: nat): nat
    requires e < |s.tunnels| && s.tunnels[e].up != []
  {
    if e == |s.tunnels| - 1 && s.incs != [] then Ahead(s.tunnels[e].up[0], MarkOf(s)) else MarkOf(s)
  }

  lemma PopReaches(s: State, e: nat)
    requires Synchronised(s) && e < |s.tunnels| && s.tunnels[e].up != []
    ensures Known(PopUp(s, e)) && ReachesEnd(PopUp(s, e), StartsAt(s, e)) && MarkOf(PopUp(s, e)) == MarkOf(s)
    ensures StartsAt(s, e) <= Ahead(s.tunnels[e].up[0], MarkOf(s)) && (s.incs == [] ==> StartsAt(s, e) == 0)
  {
    if e == |s.tunnels| - 1 { assert s.Newest().up[0] == s.tunnels[e].up[0]; }
  }

  /** What the broker has done with the front frame of tunnel `e` keeps the two halves in step. */
  lemma SyncAfter(s: State, e: nat, s': State)
    requires Synchronised(s) && Bound(s) && e < |s.tunnels| && s.tunnels[e].up != []
    requires BrokerSide(PopUp(s, e), s') && ReachesEnd(s', MarkOf(s'))
    requires !s.inTable && s.tunnels[e].up[0].Open? ==> s'.incs != []
    ensures Synchronised(s')
  {
    hide ReachUp;
  }

  /** `later` differs from `s` only in the broker's sessions, in the frames coming down, and in whether a
      failed write has ended the synchronisation. */
  ghost predicate BrokerSide(s: State, later: State) {
    && later == s.(synced := later.synced, tunnels := later.tunnels, incs := later.incs, inTable := later.inTable)
    && (later.synced == s.synced || later.synced == None)
    && |s.incs| <= |later.incs|
    && |later.tunnels| == |s.tunnels|
    && (s.tunnels != [] ==> later.Newest().up == s.Newest().up && later.Newest().upCut == s.Newest().upCut)
  }

  lemma ActBrokerSide(s: State, e: B.Effect, at: Option<nat>, read: Bytes)
    requires s.incs != []
    requires at.Some? ==> at.value < |s.tunnels|
    ensures BrokerSide(s, Act(s, e, at, read)) && Act(s, e, at, read).incs != []
  {
    ActChanges(s, e, at, read);
  }

  lemma SideChains(s: State, mid: State, later: State)
    requires BrokerSide(s, mid) && BrokerSide(mid, later)
    ensures BrokerSide(s, later)
  {
  }

  lemma CreateSide(s: State, e: nat, item: Item, failed: bool)
    requires e < |s.tunnels|
    ensures BrokerSide(s, s) && BrokerSide(s, Create(s, e))
    ensures BrokerSide(s, s.(tunnels := s.tunnels[e := PushDown(s.tunnels[e], [item], false)]))
    ensures s.incs != [] ==> BrokerSide(s, MarkFailure(s, failed))
  {
  }

  /** Reading a frame never removes an incarnation and leaves the sidecar and its frames alone. */
  lemma HandleIncs(s: State, e: nat, msg: Msg, upstreamOk: bool, budget: nat)
    requires Bound(s) && e < |s.tunnels|
    ensures var s' := Handle(s, e, msg, upstreamOk, budget);
            BrokerSide(s, s') && (!s.inTable && (msg.Open? || msg == Attach(0)) ==> s'.incs != [])
  {
    hide Act, B.OnAttach, B.OnData, BrokerSide, MarkFailure, PushDown;
    CreateSide(s, e, Item(None, CloseDown), false);
    match msg {
      case Open => if s.inTable { ActBrokerSide(s, B.OnAttach(s.Cur().s, e, 0, budget), Some(e), []); }
      case Attach(d) =>
        if s.inTable {
          ActBrokerSide(s, B.OnAttach(s.Cur().s, e, d, budget), Some(e), []);
        } else if d == 0 {
          var s1 := Create(s, e);
          ActBrokerSide(s1, B.OnAttach(s1.Cur().s, e, 0, budget), Some(e), []);
          SideChains(s, s1, Handle(s, e, msg, upstreamOk, budget));
        }
      case Data(offset, p) => if s.inTable { DataSide(s, offset, p, upstreamOk, budget); }
      case Ack(offset) => if s.inTable { ActBrokerSide(s, B.Quiet(B.OnAck(s.Cur().s, offset)), None, []); }
      case CloseUp => if s.inTable { ActBrokerSide(s, B.Quiet(B.OnSidecarClose(s.Cur().s)), None, []); }
      case _ =>
    }
  }

  lemma DataSide(s: State, offset: nat, p: Bytes, upstreamOk: bool, budget: nat)
    requires Bound(s) && s.inTable
    ensures BrokerSide(s, Act(MarkFailure(s, WritesUpstream(s.Cur().s, offset, p) && !upstreamOk),
                              B.OnData(s.Cur().s, offset, p, upstreamOk, budget), s.Cur().s.tconn, []))
  {
    hide Act, B.OnData;
    var b := s.Cur().s;
    ActBrokerSide(MarkFailure(s, WritesUpstream(b, offset, p) && !upstreamOk),
                  B.OnData(b, offset, p, upstreamOk, budget), b.tconn, []);
  }

  lemma CreateRetains(s: State, e: nat)
    requires Retaining(s) && e < |s.tunnels|
    ensures Retaining(Create(s, e))
  {
  }

  lemma LostRetains(s: State, e: nat)
    requires Retaining(s) && e < |s.tunnels|
    ensures Retaining(s.(tunnels := s.tunnels[e := PushDown(s.tunnels[e], [Item(None, CloseDown)], false)]))
  {
    if e == |s.tunnels| - 1 && |s.incs| <= 1 {
      var q, item := s.Newest().down, Item(None, CloseDown);
      AcksAppend(q, [item], s.c.upBuf.base);
      assert [item][1..] == [];
    }
  }

  lemma AttachRetains(s: State, e: nat, d: nat, budget: nat)
    requires Safe(s) && Retaining(s) && s.inTable && e < |s.tunnels|
    ensures Retaining(Act(s, B.OnAttach(s.Cur().s, e, d, budget), Some(e), []))
  {
    hide Act, Safe, B.OnAttach, Retaining;
    SafeFacts(s);
    CurrentTrue(s);
    AttachTakes(s.Cur(), e, d, budget, s.agentSent, |s.agentGot|);
    RetainAct(s, B.OnAttach(s.Cur().s, e, d, budget), Some(e), []);
  }

  lemma DataRetains(s: State, offset: nat, p: Bytes, upstreamOk: bool, budget: nat)
    requires Safe(s) && Retaining(s) && s.inTable
    ensures Retaining(Act(MarkFailure(s, WritesUpstream(s.Cur().s, offset, p) && !upstreamOk),
                          B.OnData(s.Cur().s, offset, p, upstreamOk, budget), s.Cur().s.tconn, []))
  {
    hide Act, Safe, B.OnData, AcksHold;
    SafeFacts(s);
    CurrentTrue(s);
    DataTakes(s.Cur(), offset, p, upstreamOk, budget, s.agentSent, |s.agentGot|);
    RetainAct(MarkFailure(s, WritesUpstream(s.Cur().s, offset, p) && !upstreamOk),
              B.OnData(s.Cur().s, offset, p, upstreamOk, budget), s.Cur().s.tconn, []);
  }

  lemma HandleRetains(s: State, e: nat, msg: Msg, upstreamOk: bool, budget: nat)
    requires Safe(s) && Retaining(s) && s.started && e < |s.tunnels|
    ensures Retaining(Handle(s, e, msg, upstreamOk, budget))
  {
    hide Act, Safe, Retaining, B.OnAttach, B.OnData, MarkFailure;
    SafeFacts(s);
    match msg {
      case Open => if s.inTable { AttachRetains(s, e, 0, budget); } else { CreateRetains(s, e); }
      case Attach(d) =>
        if s.inTable {
          AttachRetains(s, e, d, budget);
        } else if d == 0 {
          CreateRetains(s, e);
          CreateSafe(s, e);
          AttachRetains(Create(s, e), e, 0, budget);
        } else {
          LostRetains(s, e);
        }
      case Data(offset, p) => if s.inTable { DataRetains(s, offset, p, upstreamOk, budget); }
      case Ack(offset) => if s.inTable { RetainAct(s, B.Quiet(B.OnAck(s.Cur().s, offset)), None, []); }
      case CloseUp => if s.inTable { RetainAct(s, B.Quiet(B.OnSidecarClose(s.Cur().s)), None, []); }
      case _ =>
    }
  }

  lemma BrokerReadUpright(s: State, e: nat, upstreamOk: bool, budget: nat)
    requires Upright(s)
    requires Enabled(s, BrokerReads(e, upstreamOk, budget))
    ensures Retaining(BrokerRead(s, e, upstreamOk, budget)) && Synchronised(BrokerRead(s, e, upstreamOk, budget))
  {
    hide Handle, Synchronised, AcksHold, Safe;
    BrokerReadSync(s, e, upstreamOk, budget);
    StartedByFrames(s, e);
    ShrinkSafe(s, e, s.tunnels[e].(up := s.tunnels[e].up[1..]));
    HandleRetains(PopUp(s, e), e, s.tunnels[e].up[0], upstreamOk, budget);
  }

  lemma StartedByFrames(s: State, e: nat)
    requires Safe(s) && e < |s.tunnels| && s.tunnels[e].up != []
    ensures s.started
  {
  }

  // ---------------------------------------------------------------- the sidecar reads a frame

  lemma SendUpRetains(s: State, msgs: seq<Msg>)
    requires s.linked ==> s.tunnels != []
    ensures Retaining(SendUp(s, msgs)) <==> Retaining(s)
  {
  }

  /** A frame that carries no bytes, or the agent's next bytes, keeps the broker's way to the end. */
  lemma SendUpSync(s: State, msgs: seq<Msg>)
    requires Synchronised(s) && (s.linked ==> s.tunnels != [])
    requires msgs != [] ==> !msgs[0].Data?
    ensures Synchronised(SendUp(s, msgs))
  {
    if Running(s) && msgs != [] { ReachUpAppend(s.Newest().up, msgs[0], MarkOf(s)); }
  }

  lemma AckFrontRetains(s: State, offset: nat, rest: seq<Item>, w: Window)
    requires |s.incs| <= 1 && s.c.upBuf.Retains(s.agentSent) && offset <= |s.agentSent|
    requires s.c.upBuf.base <= offset && AcksHold(rest, offset, Written(s))
    requires w == s.c.upBuf.TrimTo(offset)
    ensures w.base == offset && AcksHold(rest, w.base, Written(s)) && w.base <= Written(s)
  {
    AcksLower(rest, offset, offset);
  }

  /** After the front frame has been taken, the queue holds from the offset it acknowledged. */
  lemma FrontAcks(q: seq<Item>, base: nat, written: nat)
    requires q != [] && AcksHold(q, base, written)
    ensures IsAck(q[0].msg) ==> base <= q[0].msg.offset && AcksHold(q[1..], q[0].msg.offset, written)
    ensures AcksHold(q[1..], base, written)
  {
    if IsAck(q[0].msg) { AcksLower(q[1..], q[0].msg.offset, base); }
  }

  /** What must hold of the queue behind an acknowledgement of `offset`. */
  ghost predicate AckReady(s: State, offset: nat) {
    s.tunnels != [] && (|s.incs| <= 1 ==>
      && s.c.upBuf.base <= offset
      && AcksHold(s.Newest().down, offset, Written(s)))
  }

  lemma AckRetains(s: State, item: Item)
    requires Safe(s) && ItemTrue(item, s.incs) && IsAck(item.msg) && AckReady(s, item.msg.offset)
    ensures Retaining(s.(c := s.c.(upBuf := s.c.upBuf.TrimTo(item.msg.offset))))
  {
    hide AcksHold;
    if |s.incs| <= 1 {
      WithinSent(s, item);
      AckFrontRetains(s, item.msg.offset, s.Newest().down, s.c.upBuf.TrimTo(item.msg.offset));
    }
  }

  lemma ReattachedRetains(s: State, item: Item, synced: Option<nat>)
    requires Safe(s) && ItemTrue(item, s.incs) && item.msg.AttachOk? && AckReady(s, item.msg.offset)
    ensures var o := C.OnAttachOk(s.c, item.msg.offset); Retaining(SendUp(s.(c := o.c, synced := synced), o.send))
  {
    hide AckReady, Safe, SendUp, AcksHold;
    SafeFacts(s);
    AckRetains(s, item);
    var o := C.OnAttachOk(s.c, item.msg.offset);
    SendUpRetains(s.(c := o.c, synced := synced), o.send);
  }

  lemma DeliverRetains(s: State, item: Item, agentOk: bool)
    requires Retaining(s) && (s.linked ==> s.tunnels != []) && !s.c.dead && item.msg.Data?
    ensures Retaining(Dispatch(s, item, agentOk))
  {
    hide Dispatch, SendUp, AcksHold;
    DispatchData(s, item.inc, item.msg.offset, item.msg.payload, agentOk);
    if Accepts(s.c.downDelivered, item.msg.offset, item.msg.payload) {
      var added := Fresh(s.c.downDelivered, item.msg.offset, item.msg.payload);
      SendUpRetains(Delivered(s, item.inc, added), [Ack(s.c.downDelivered + |added|)]);
    }
  }

  lemma DispatchRetains(s: State, item: Item, agentOk: bool)
    requires Safe(s) && Retaining(s) && ItemTrue(item, s.incs)
    requires IsAck(item.msg) ==> AckReady(s, item.msg.offset)
    ensures Retaining(Dispatch(s, item, agentOk))
  {
    hide AckReady, AcksHold, SendUp, C.DeliverDown, C.OnAttachOk, C.Serves, Safe;
    SafeFacts(s);
    if !s.c.dead {
      match item.msg {
        case AttachOk(offset) => ReattachedRetains(s, item, if C.Serves(s.c, offset) then item.inc else None);
        case Ack(offset) => AckRetains(s, item);
        case Data(offset, p) => DeliverRetains(s, item, agentOk);
        case _ =>
      }
    }
  }

  lemma WithinSent(s: State, item: Item)
    requires Safe(s) && ItemTrue(item, s.incs) && IsAck(item.msg)
    ensures item.msg.offset <= |s.agentSent|
    ensures |s.incs| <= 1 ==> s.incs != [] && item.msg.offset <= Written(s)
  {
  }

  /** A replay of everything from `w` on leads a broker at or beyond `w` to the end, whatever frames
      are before it in the queue. */
  lemma ReplayCatchesUp(up: seq<Msg>, mark: nat, w: nat, agentSent: Bytes, d: nat)
    requires forall k :: 0 <= k < |up| ==> UpTrue(up[k], agentSent, d)
    requires w <= mark <= |agentSent|
    ensures w < |agentSent| ==> ReachUp(up + [Data(w, agentSent[w..])], mark) == |agentSent|
    ensures w == |agentSent| ==> ReachUp(up, mark) == |agentSent|
  {
    ReachUpMonotone(up, mark, mark, agentSent, d);
    ReachUpAppend(up, Data(w, agentSent[w..]), mark);
  }

  /** An offset within what the agent has sent is served if and only if it has not been trimmed. */
  lemma ServesIff(c: C.Client, agentSent: Bytes, w: nat)
    requires c.upBuf.Retains(agentSent) && w <= |agentSent|
    ensures C.Serves(c, w) <==> c.upBuf.base <= w
    ensures C.OnAttachOk(c, w).send == if c.upBuf.base <= w < |agentSent| then [Data(w, agentSent[w..])] else []
  {
    TrimRetains(c.upBuf, agentSent, w);
    if c.upBuf.base <= w { FromIsTail(c.upBuf.TrimTo(w), agentSent, w); }
  }

  /** ATTACH_OK restarts the upstream half: the replay closes whatever gap there was. */
  lemma ReattachedSync(s: State, item: Item)
    requires Safe(s) && s.tunnels != [] && s.linked && !s.c.dead
    requires item.msg.AttachOk? && ItemTrue(item, s.incs)
    ensures var o := C.OnAttachOk(s.c, item.msg.offset);
            Synchronised(SendUp(s.(c := o.c, synced := if C.Serves(s.c, item.msg.offset) then item.inc else None),
                                o.send))
  {
    hide C.OnAttachOk, C.Serves, ReachUp;
    var offset := item.msg.offset;
    var o := C.OnAttachOk(s.c, offset);
    WithinSent(s, item);
    ServesIff(s.c, s.agentSent, offset);
    if Running(SendUp(s.(c := o.c, synced := if C.Serves(s.c, offset) then item.inc else None), o.send)) {
      MarkWithin(s);
      assert TunnelTrue(s.Newest(), s.agentSent, |s.agentGot|, s.incs);
      ReplayCatchesUp(s.Newest().up, MarkOf(s), offset, s.agentSent, |s.agentGot|);
    }
  }

  lemma DeliverSync(s: State, item: Item, agentOk: bool)
    requires Synchronised(s) && (s.linked ==> s.tunnels != []) && !s.c.dead && item.msg.Data?
    ensures Synchronised(Dispatch(s, item, agentOk))
  {
    hide Dispatch, SendUp, Leads;
    DispatchData(s, item.inc, item.msg.offset, item.msg.payload, agentOk);
    if Accepts(s.c.downDelivered, item.msg.offset, item.msg.payload) {
      var added := Fresh(s.c.downDelivered, item.msg.offset, item.msg.payload);
      SendUpSync(Delivered(s, item.inc, added), [Ack(s.c.downDelivered + |added|)]);
    }
  }

  lemma DispatchSync(s: State, item: Item, agentOk: bool)
    requires Safe(s) && Synchronised(s) && s.linked && ItemTrue(item, s.incs)
    ensures Synchronised(Dispatch(s, item, agentOk))
  {
    hide SendUp, C.DeliverDown, C.OnAttachOk, C.Serves, C.OnClose, Safe, Leads;
    SafeFacts(s);
    if !s.c.dead {
      match item.msg {
        case AttachOk(offset) => ReattachedSync(s, item);
        case Data(offset, p) => DeliverSync(s, item, agentOk);
        case _ =>
      }
    }
  }

  lemma PopDownUpright(s: State)
    requires Upright(s) && s.tunnels != [] && s.Newest().down != []
    ensures Upright(PopDown(s))
    ensures IsAck(s.Newest().down[0].msg) ==> AckReady(PopDown(s), s.Newest().down[0].msg.offset)
  {
    hide Safe, AcksFrom, AckTop, Leads, AcksHold;
    var t := s.Newest();
    ShrinkSafe(s, |s.tunnels| - 1, t.(down := t.down[1..]));
    if |s.incs| <= 1 { FrontAcks(t.down, s.c.upBuf.base, Written(s)); }
  }

  lemma ClientReadUpright(s: State, agentOk: bool)
    requires Upright(s)
    requires Enabled(s, ClientReads(agentOk))
    ensures Retaining(ClientRead(s, agentOk)) && Synchronised(ClientRead(s, agentOk))
  {
    hide Dispatch, Synchronised, Retaining, AckReady;
    assert TunnelTrue(s.Newest(), s.agentSent, |s.agentGot|, s.incs) && ItemTrue(s.Newest().down[0], s.incs);
    PopDownUpright(s);
    DispatchRetains(PopDown(s), s.Newest().down[0], agentOk);
    DispatchSync(PopDown(s), s.Newest().down[0], agentOk);
  }

  // ---------------------------------------------------------------- the other steps

  lemma StartedUpright(s: State)
    requires Upright(s)
    requires Enabled(s, OpenSession)
    ensures Retaining(Started(s)) && Synchronised(Started(s))
  {
    SendUpRetains(s.(started := true, synced := Some(0)), [Open]);
    var s' := Started(s);
    if Running(s') { ReachUpAppend(s.Newest().up, Open, 0); }
  }

  lemma WroteUpright(s: State, chunk: Bytes)
    requires Upright(s)
    requires Enabled(s, AgentWrites(chunk))
    ensures Retaining(Wrote(s, chunk)) && Synchronised(Wrote(s, chunk))
  {
    hide AcksHold;
    var o := C.WriteUp(s.c, chunk);
    var s1 := s.(c := o.c, agentSent := s.agentSent + chunk);
    SendUpRetains(s1, o.send);
    if Running(s) { ReachUpAppend(s.Newest().up, o.send[0], MarkOf(s)); }
  }

  lemma FinishedUpright(s: State)
    requires Upright(s)
    requires Enabled(s, AgentCloses)
    ensures Retaining(FinishedWriting(s)) && Synchronised(FinishedWriting(s))
  {
    hide SendUp, Safe, AcksHold, Leads;
    SafeFacts(s);
    SendUpRetains(s.(c := C.CloseUp(s.c).c), C.CloseUp(s.c).send);
    SendUpSync(s.(c := C.CloseUp(s.c).c), C.CloseUp(s.c).send);
  }

  lemma SentAttachUpright(s: State)
    requires Upright(s)
    requires Enabled(s, SendAttach)
    ensures Retaining(SentAttach(s)) && Synchronised(SentAttach(s))
  {
    hide SendUp, Safe, AcksHold, Leads;
    SendUpRetains(s.(attachDue := false), [C.AttachFrame(s.c)]);
    SendUpSync(s.(attachDue := false), [C.AttachFrame(s.c)]);
  }

  lemma ConnectedUpright(s: State)
    requires Upright(s)
    requires Enabled(s, Connect)
    ensures Retaining(Connected(s)) && Synchronised(Connected(s))
  {
    hide Safe, Leads;
  }

  lemma FlagsUpright(s: State)
    requires Upright(s)
    ensures var s' := s.(linked := false, attachDue := false); Retaining(s') && Synchronised(s')
    ensures s.inTable && s.incs != [] ==> var s' := s.(inTable := false); Retaining(s') && Synchronised(s')
  {
    hide Safe, Leads, AcksHold;
  }

  lemma LostUpUpright(s: State, e: nat, keep: nat)
    requires Upright(s)
    requires Enabled(s, CutUp(e, keep))
    ensures Retaining(LostUp(s, e, keep)) && Synchronised(LostUp(s, e, keep))
  {
    hide Safe, Leads, AcksHold;
  }

  lemma LostDownUpright(s: State, e: nat, keep: nat)
    requires Upright(s)
    requires Enabled(s, CutDown(e, keep))
    ensures Retaining(LostDown(s, e, keep)) && Synchronised(LostDown(s, e, keep))
  {
    hide Safe, Leads, AcksFrom, AckTop;
    if e == |s.tunnels| - 1 && |s.incs| <= 1 { AcksPrefix(s.Newest().down, keep, s.c.upBuf.base); }
  }

  lemma DroppedUpright(s: State, e: nat)
    requires Upright(s)
    requires Enabled(s, BrokerDrops(e))
    ensures Retaining(Dropped(s, e)) && Synchronised(Dropped(s, e))
  {
    hide Safe, Leads, AcksHold, Act;
    if s.incs != [] { IdleAct(ShutTunnel(s, e), B.Detach(s.Cur().s, e), None, []); }
  }

  lemma DialledUpright(s: State, flushOk: bool, budget: nat)
    requires Upright(s)
    requires Enabled(s, DialDone(flushOk, budget))
    ensures Retaining(Dialled(s, flushOk, budget)) && Synchronised(Dialled(s, flushOk, budget))
  {
    hide Safe, Retaining, Synchronised, Act, B.DialDone;
    var b := s.Cur().s;
    var failed := b.preConn != [] && !flushOk;
    CurrentTrue(s);
    MarkFailureUpright(s, failed);
    DialTakes(s.Cur(), flushOk, budget, s.agentSent, |s.agentGot|);
    IdleAct(MarkFailure(s, failed), B.DialDone(b, flushOk, budget), b.tconn, []);
  }

  lemma DialRefusedUpright(s: State, budget: nat)
    requires Upright(s)
    requires Enabled(s, DialFails(budget))
    ensures Retaining(DialRefused(s, budget)) && Synchronised(DialRefused(s, budget))
  {
    hide Safe, Retaining, Synchronised, Act;
    TransmitAcks(s.Cur().s, [CloseDown], budget, |s.Cur().got|);
    B.TransmitFacts(s.Cur().s, [CloseDown], budget);
    IdleAct(s, B.DialFailed(s.Cur().s, budget), s.Cur().s.tconn, []);
  }

  lemma ProducedUpright(s: State, chunk: Bytes, writeOk: bool)
    requires Upright(s)
    requires Enabled(s, UpstreamSends(chunk, writeOk))
    ensures Retaining(Produced(s, chunk, writeOk)) && Synchronised(Produced(s, chunk, writeOk))
  {
    hide Safe, Retaining, Synchronised, Act;
    IdleAct(s, B.Produce(s.Cur().s, chunk, writeOk), s.Cur().s.tconn, chunk);
  }

  lemma EndedUpright(s: State, budget: nat)
    requires Upright(s)
    requires Enabled(s, UpstreamEof(budget))
    ensures Retaining(Ended(s, budget)) && Synchronised(Ended(s, budget))
  {
    hide Safe, Retaining, Synchronised, Act, B.CloseUpstream;
    CloseTakes(s.Cur().s.(reading := false), budget, |s.Cur().got|);
    IdleAct(s, B.UpstreamEof(s.Cur().s, budget), s.Cur().s.tconn, []);
  }

  lemma FiredUpright(s: State)
    requires Upright(s)
    requires Enabled(s, WatchdogFires)
    ensures Retaining(Fired(s)) && Synchronised(Fired(s))
  {
    hide Safe, Retaining, Synchronised, Act;
    IdleAct(s, B.WatchdogFires(s.Cur().s), None, []);
  }

  lemma StepUpright(s: State, a: Action)
    requires Upright(s)
    requires Enabled(s, a)
    ensures Upright(Step(s, a))
  {
    hide Started, Wrote, FinishedWriting, Connected, SentAttach, ClientRead, LostUp, LostDown, BrokerRead;
    hide Dropped, Dialled, DialRefused, Produced, Ended, Fired, Safe, Retaining, Synchronised;
    StepSafe(s, a);
    match a {
      case OpenSession => StartedUpright(s);
      case AgentWrites(chunk) => WroteUpright(s, chunk);
      case AgentCloses => FinishedUpright(s);
      case Connect => ConnectedUpright(s);
      case SendAttach => SentAttachUpright(s);
      case Disconnect => FlagsUpright(s);
      case ClientReads(agentOk) => ClientReadUpright(s, agentOk);
      case CutUp(e, keep) => LostUpUpright(s, e, keep);
      case CutDown(e, keep) => LostDownUpright(s, e, keep);
      case BrokerReads(e, upstreamOk, budget) => BrokerReadUpright(s, e, upstreamOk, budget);
      case BrokerDrops(e) => DroppedUpright(s, e);
      case DialDone(flushOk, budget) => DialledUpright(s, flushOk, budget);
      case DialFails(budget) => DialRefusedUpright(s, budget);
      case UpstreamSends(chunk, writeOk) => ProducedUpright(s, chunk, writeOk);
      case UpstreamEof(budget) => EndedUpright(s, budget);
      case WatchdogFires => FiredUpright(s);
      case Remove => FlagsUpright(s);
    }
  }

  lemma {:induction false} RunUpright(s: State, run: seq<Action>)
    requires Upright(s)
    requires Legal(s, run)
    ensures Upright(Exec(s, run))
    decreases |run|
  {
    hide Upright, Step, Enabled;
    if run != [] {
      StepUpright(s, run[0]);
      RunUpright(Step(s, run[0]), run[1..]);
    }
  }

  lemma ReachableUpright(s: State, upMax: nat, downMax: nat, run: seq<Action>)
    requires Legal(Init(upMax, downMax), run) && s == Exec(Init(upMax, downMax), run)
    ensures Upright(s)
  {
    assert Upright(Init(upMax, downMax));
    RunUpright(Init(upMax, downMax), run);
  }

  // ---------------------------------------------------------------- what it means

  /** An ATTACH_OK or ACK at `w` that the sidecar reads, from whichever incarnation, is within what the
      agent has sent, and can be served if and only if nothing beyond it was trimmed; then what is
      replayed is exactly what the agent sent from `w` on. In the first incarnation it always can. */
  lemma AttachOkIsServedIff(s: State, upMax: nat, downMax: nat, run: seq<Action>)
    requires Legal(Init(upMax, downMax), run) && s == Exec(Init(upMax, downMax), run)
    requires Enabled(s, ClientReads(true)) && IsAck(s.Newest().down[0].msg)
    ensures var w := s.Newest().down[0].msg.offset;
            && w <= |s.agentSent|
            && (C.Serves(s.c, w) <==> s.c.upBuf.base <= w)
            && (C.Serves(s.c, w) ==> s.c.upBuf.TrimTo(w).From(w) == s.agentSent[w..])
            && (|s.incs| <= 1 ==> s.c.upBuf.base <= w)
  {
    hide Safe;
    ReachableUpright(s, upMax, downMax, run);
    var w := s.Newest().down[0].msg.offset;
    PopDownUpright(s);
    FrontTrue(s);
    WithinSent(s, s.Newest().down[0]);
    RetainsSent(s);
    ServesIff(s.c, s.agentSent, w);
    TrimRetains(s.c.upBuf, s.agentSent, w);
    if C.Serves(s.c, w) { FromIsTail(s.c.upBuf.TrimTo(w), s.agentSent, w); }
  }

  lemma FrontTrue(s: State)
    requires Safe(s) && s.tunnels != [] && s.Newest().down != []
    ensures ItemTrue(s.Newest().down[0], s.incs)
  {
    assert TunnelTrue(s.Newest(), s.agentSent, |s.agentGot|, s.incs);
  }

  lemma RetainsSent(s: State)
    requires Safe(s)
    ensures s.c.upBuf.Retains(s.agentSent)
  {
  }

  /** From the moment the attach exchange of the newest tunnel with the current incarnation is over and was
      served, until the tunnel or a write to upstream fails, the frames in flight take the broker exactly to
      the end of what the agent has sent. While it is not there, one of them carries its next byte: a frame
      beyond the mark, if the agent wrote before the attach was answered, is made up for by a later one. */
  lemma UpstreamContiguous(s: State, upMax: nat, downMax: nat, run: seq<Action>)
    requires Legal(Init(upMax, downMax), run) && s == Exec(Init(upMax, downMax), run)
    requires Running(s)
    ensures ReachUp(s.Newest().up, MarkOf(s)) == |s.agentSent|
    ensures MarkOf(s) < |s.agentSent| ==> !Misses(s.Newest().up, MarkOf(s))
  {
    ReachableUpright(s, upMax, downMax, run);
    if Misses(s.Newest().up, MarkOf(s)) { MissedStays(s.Newest().up, MarkOf(s)); }
  }

  /** The broker's queue of bytes that wait for the dial has no cap of its own, but in the first
      incarnation it never exceeds the sidecar's replay buffer. */
  lemma WaitingBytesBounded(s: State, upMax: nat, downMax: nat, run: seq<Action>)
    requires Legal(Init(upMax, downMax), run) && s == Exec(Init(upMax, downMax), run)
    requires |s.incs| == 1 && !s.Cur().s.connected
    ensures |s.Cur().s.preConn| <= |s.c.upBuf.bytes| <= s.c.upBuf.max
  {
    ReachableUpright(s, upMax, downMax, run);
    CurrentTrue(s);
    assert s.Cur().got + s.Cur().s.preConn == s.Cur().s.preConn;
  }
}
