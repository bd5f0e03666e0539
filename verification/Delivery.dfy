/** The downstream direction on the sidecar's newest tunnel, in every run: no gaps, everything up to the
    end of the stream, and each close only after the bytes its incarnation had read by then. */
module Delivery {
  import opened Streams
  import opened ReplayBuffers
  import opened Messages
  import opened Protocol
  import opened Safety
  import opened Introduction
  import C = ClientSessions
  import B = BrokerSessions

  // ---------------------------------------------------------------- reading a queue of frames

  /** Where a receiver standing at `d` stands after taking all frames of the queue. */
  function Reach(q: seq<Item>, d: nat): nat
    decreases |q|
  {
    if q == [] then d else Reach(q[1..], After(q[0], d))
  }

  function After(item: Item, d: nat): nat {
    if item.msg.Data? then NextMark(d, item.msg.offset, item.msg.payload) else d
  }

  /** The frame leaves no gap for a receiver at `d`, and a close comes at or after the mark of the
      incarnation that sent it. */
  predicate Fits(item: Item, d: nat, marks: seq<nat>) {
    match item.msg
    case Data(offset, _) => offset <= d
    case CloseDown => item.inc.Some? ==> item.inc.value < |marks| && marks[item.inc.value] <= d
    case _ => true
  }

  ghost predicate Flows(q: seq<Item>, d: nat, marks: seq<nat>)
    decreases |q|
  {
    q == [] || (Fits(q[0], d, marks) && Flows(q[1..], After(q[0], d), marks))
  }

  lemma {:induction false} FlowsAppend(q: seq<Item>, r: seq<Item>, d: nat, marks: seq<nat>)
    ensures Reach(q + r, d) == Reach(r, Reach(q, d))
    ensures Flows(q + r, d, marks) <==> Flows(q, d, marks) && Flows(r, Reach(q, d), marks)
    decreases |q|
  {
    if q == [] {
      assert q + r == r;
    } else {
      assert (q + r)[0] == q[0] && (q + r)[1..] == q[1..] + r;
      FlowsAppend(q[1..], r, After(q[0], d), marks);
    }
  }

  lemma OneFlows(item: Item, d: nat, marks: seq<nat>)
    ensures Reach([item], d) == After(item, d)
    ensures Flows([item], d, marks) <==> Fits(item, d, marks)
  {
    assert [item][1..] == [];
  }

  lemma EmptyFlows(d: nat, marks: seq<nat>)
    ensures Flows([], d, marks) && Reach([], d) == d
  {
  }

  /** The queue never takes the receiver back. */
  lemma {:induction false} ReachAhead(q: seq<Item>, d: nat)
    ensures d <= Reach(q, d)
    decreases |q|
  {
    if q != [] { ReachAhead(q[1..], After(q[0], d)); }
  }

  /** No close in the queue comes from incarnation `inc`. */
  ghost predicate NoCloseOf(q: seq<Item>, inc: nat) {
    forall k :: 0 <= k < |q| ==> !(q[k].msg.CloseDown? && q[k].inc == Some(inc))
  }

  /** Marks may change, and be added, for incarnations with no close in the queue. */
  lemma {:induction false} FlowsMarks(q: seq<Item>, d: nat, marks: seq<nat>, marks': seq<nat>)
    requires Flows(q, d, marks) && |marks| <= |marks'|
    requires forall i :: 0 <= i < |marks| ==> marks'[i] == marks[i] || NoCloseOf(q, i)
    ensures Flows(q, d, marks')
    decreases |q|
  {
    if q != [] {
      assert Fits(q[0], d, marks');
      forall i | 0 <= i < |marks| ensures marks'[i] == marks[i] || NoCloseOf(q[1..], i) {
        if marks'[i] != marks[i] { assert NoCloseOf(q, i); }
      }
      FlowsMarks(q[1..], After(q[0], d), marks, marks');
    }
  }

  lemma FlowsPrefix(q: seq<Item>, k: nat, d: nat, marks: seq<nat>)
    requires k <= |q|
    requires Flows(q, d, marks)
    ensures Flows(q[..k], d, marks)
  {
    assert q == q[..k] + q[k..];
    FlowsAppend(q[..k], q[k..], d, marks);
  }

  // ---------------------------------------------------------------- the invariant

  /** How much the incarnation had read from upstream when it recorded the close. */
  function CloseMark(i: Incarnation): nat { if i.s.downClosed then i.closedAt else 0 }

  function Marks(incs: seq<Incarnation>): (marks: seq<nat>)
    ensures |marks| == |incs| && forall i :: 0 <= i < |incs| ==> marks[i] == CloseMark(incs[i])
  {
    seq(|incs|, i requires 0 <= i < |incs| => CloseMark(incs[i]))
  }

  function Max(a: nat, b: nat): nat { if a < b then b else a }

  /** The queue has no gap and no early close; and if the session is bound to the tunnel and nothing was
      lost, it ends where the bytes read from upstream end, or where the receiver stands if that is
      further on. */
  ghost predicate QueueFlows(down: seq<Item>, cut: bool, d: nat, marks: seq<nat>, total: nat, bound: bool) {
    && Flows(down, d, marks)
    && (bound && !cut ==> Reach(down, d) == Max(d, total))
  }

  function Total(s: State): nat { if s.incs == [] then 0 else |s.Cur().sent| }

  ghost predicate Flowing(s: State) {
    s.tunnels != [] && !s.c.dead ==>
      QueueFlows(s.Newest().down, s.Newest().downCut, |s.agentGot|, Marks(s.incs), Total(s), BoundToNewest(s))
  }

  ghost predicate Faithful(s: State) { Safe(s) && Ordered(s) && Flowing(s) }

  // ---------------------------------------------------------------- session steps

  /** How a handler behaves towards the tunnel it is bound to: it forwards exactly what it reads, and
      sends the close when it records it. */
  ghost predicate Orderly(i: Incarnation, e: B.Effect, read: Bytes) {
    && (e.s.tconn == i.s.tconn || e.s.tconn == None)
    && (i.s.downClosed ==> e.s.downClosed)
    && (i.s.dead ==> e.s.dead && read == [] && e.s.downClosed == i.s.downClosed)
    && (e.s.downClosed && !i.s.downClosed ==> read == [])
    && (e.sent == [] || (|e.sent| == 1 &&
          match e.sent[0]
          case Data(offset, p) => offset == |i.sent| && p == read
          case CloseDown => !i.s.downClosed && !i.s.dead && read == [] && (e.s.downClosed || e.s.dead)
          case Ack(_) => read == []
          case _ => false))
    && (i.s.tconn.Some? && e.s.tconn.Some? && e.sent == [] ==> read == [])
  }

  /** Before an incarnation is over, no close of it is in flight. */
  lemma NoCloseYet(s: State)
    requires Safe(s) && s.incs != [] && s.tunnels != [] && !Over(s.Cur())
    ensures NoCloseOf(s.Newest().down, |s.incs| - 1)
  {
    assert TunnelTrue(s.Newest(), s.agentSent, |s.agentGot|, s.incs);
    forall k | 0 <= k < |s.Newest().down|
        ensures !(s.Newest().down[k].msg.CloseDown? && s.Newest().down[k].inc == Some(|s.incs| - 1)) {
      assert ItemTrue(s.Newest().down[k], s.incs);
    }
  }

  /** The marks after a step of the current incarnation still fit the newest tunnel. */
  lemma MarksAfter(s: State, e: B.Effect, at: Option<nat>, read: Bytes)
    requires Safe(s) && s.incs != [] && s.tunnels != [] && Orderly(s.Cur(), e, read)
    requires at.Some? ==> at.value < |s.tunnels|
    requires Flows(s.Newest().down, |s.agentGot|, Marks(s.incs))
    ensures Flows(s.Newest().down, |s.agentGot|, Marks(Act(s, e, at, read).incs))
  {
    hide Act, Safe;
    ActChanges(s, e, at, read);
    var s', last := Act(s, e, at, read), |s.incs| - 1;
    if CloseMark(s'.Cur()) != CloseMark(s.Cur()) { NoCloseYet(s); }
    forall i | 0 <= i < |s.incs| ensures Marks(s'.incs)[i] == Marks(s.incs)[i] || NoCloseOf(s.Newest().down, i) {
      if i < last { assert s'.incs[i] == s.incs[i]; }
    }
    FlowsMarks(s.Newest().down, |s.agentGot|, Marks(s.incs), Marks(s'.incs));
  }

  /** What an orderly handler sends continues the queue of the tunnel it is bound to. */
  lemma OrderlyTail(i: Incarnation, inc: nat, e: B.Effect, read: Bytes, at: nat, marks: seq<nat>)
    requires Orderly(i, e, read) && e.sent != [] && |i.sent| <= at
    requires inc < |marks| && marks[inc] == CloseMark(AfterEffect(i, e, read))
    ensures var q := Tag(inc, e.sent);
            Flows(q, at, marks) && Reach(q, at) == Max(at, |i.sent| + |read|)
  {
    var item := Item(Some(inc), e.sent[0]);
    assert Tag(inc, e.sent) == [item];
    OneFlows(item, at, marks);
  }

  lemma OrderlyFlow(s: State, e: B.Effect, read: Bytes)
    requires Faithful(s) && s.incs != []
    requires Orderly(s.Cur(), e, read)
    ensures Flowing(Act(s, e, s.Cur().s.tconn, read))
  {
    hide Act, Safe, Ordered, Flows, Reach, Orderly, Marks;
    SafeFacts(s);
    var at := s.Cur().s.tconn;
    ActChanges(s, e, at, read);
    OrderlyFacts(s.Cur(), e, read);
    if s.tunnels != [] && !s.c.dead {
      var s', d, q := Act(s, e, at, read), |s.agentGot|, s.Newest().down;
      MarksAfter(s, e, at, read);
      if at == Some(|s.tunnels| - 1) && !s.Newest().downCut {
        var items := Tag(|s.incs| - 1, e.sent);
        FlowsAppend(q, items, d, Marks(s'.incs));
        if e.sent == [] {
          assert q + items == q;
        } else {
          LastMark(s');
          OrderlyTail(s.Cur(), |s.incs| - 1, e, read, Reach(q, d), Marks(s'.incs));
        }
      }
    }
  }

  lemma LastMark(s: State)
    requires s.incs != []
    ensures |Marks(s.incs)| == |s.incs| && Marks(s.incs)[|s.incs| - 1] == CloseMark(s.Cur())
  {
  }

  lemma OrderlyFacts(i: Incarnation, e: B.Effect, read: Bytes)
    requires Orderly(i, e, read)
    ensures e.s.tconn == i.s.tconn || e.s.tconn == None
    ensures i.s.tconn.Some? && e.s.tconn.Some? && e.sent == [] ==> read == []
  {
  }

  lemma CloseOrderly(i: Incarnation, budget: nat)
    requires !i.s.dead
    ensures Orderly(i, B.CloseUpstream(i.s, budget), [])
  {
    B.TransmitFacts(i.s.(downClosed := true), [CloseDown], budget);
  }

  lemma EofOrderly(i: Incarnation, budget: nat)
    requires !i.s.dead
    ensures Orderly(i, B.UpstreamEof(i.s, budget), [])
  {
    CloseOrderly(i.(s := i.s.(reading := false)), budget);
  }

  lemma OnDataOrderly(i: Incarnation, offset: nat, p: Bytes, upstreamOk: bool, budget: nat)
    ensures Orderly(i, B.OnData(i.s, offset, p, upstreamOk, budget), [])
  {
    if WritesUpstream(i.s, offset, p) {
      CloseOrderly(i, budget);
      var written := i.s.upstreamWritten + |Fresh(i.s.upstreamWritten, offset, p)|;
      B.TransmitFacts(i.s.(upstreamWritten := written, requestOutstanding := true, watchdog := true), [Ack(written)],
                      budget);
    }
  }

  lemma DialDoneOrderly(i: Incarnation, flushOk: bool, budget: nat)
    requires !i.s.dead
    ensures Orderly(i, B.DialDone(i.s, flushOk, budget), [])
  {
    hide B.Transmit, B.CloseUpstream;
    var s1 := i.s.(connected := true, preConn := [], watchdog := true);
    CloseOrderly(i.(s := s1), budget);
    var written := i.s.upstreamWritten + |i.s.preConn|;
    B.TransmitFacts(s1.(reading := true, upstreamWritten := written, requestOutstanding := true), [Ack(written)],
                    budget);
  }

  lemma DialFailedOrderly(i: Incarnation, budget: nat)
    requires !i.s.dead && !i.s.downClosed
    ensures Orderly(i, B.DialFailed(i.s, budget), [])
  {
  }

  lemma ProduceOrderly(i: Incarnation, chunk: Bytes, writeOk: bool)
    requires i.s.downBuf.Retains(i.sent) && !i.s.dead && 0 < |chunk| <= CHUNK
    ensures Orderly(i, B.Produce(i.s, chunk, writeOk), chunk)
  {
  }

  /** A step that writes to no tunnel, keeps the binding or drops it, and records no close. */
  lemma SilentFlow(s: State, b: B.Session)
    requires Faithful(s) && s.incs != []
    requires b.tconn == s.Cur().s.tconn || b.tconn == None
    requires b.downClosed == s.Cur().s.downClosed && (s.Cur().s.dead ==> b.dead)
    ensures Flowing(SetSession(s, b))
  {
    hide Act, Safe, Ordered;
    SafeFacts(s);
    ActChanges(s, B.Quiet(b), None, []);
    assert s.Cur().sent + [] == s.Cur().sent;
    SameMarks(s.incs, SetSession(s, b).incs);
  }

  lemma SameMarks(incs: seq<Incarnation>, incs': seq<Incarnation>)
    requires |incs| == |incs'| && forall i :: 0 <= i < |incs| ==> CloseMark(incs[i]) == CloseMark(incs'[i])
    ensures Marks(incs) == Marks(incs')
  {
  }

  // ---------------------------------------------------------------- attaching

  /** An attach on a tunnel the sidecar no longer reads. */
  lemma StaleAttachFlow(s: State, e: nat, delivered: nat, budget: nat)
    requires Safe(s) && Flowing(s) && s.incs != []
    requires e < |s.tunnels| - 1
    ensures Flowing(Act(s, B.OnAttach(s.Cur().s, e, delivered, budget), Some(e), []))
  {
    hide Act, Safe, B.AttachReply;
    SafeFacts(s);
    var eff := B.OnAttach(s.Cur().s, e, delivered, budget);
    B.TransmitFacts(B.Bind(s.Cur().s, e), B.AttachReply(s.Cur().s, delivered), budget);
    ActChanges(s, eff, Some(e), []);
    assert s.Cur().sent + [] == s.Cur().sent;
    SameMarks(s.incs, Act(s, eff, Some(e), []).incs);
  }

  /** The frames that answer an ATTACH, in order. */
  lemma ReplyInOrder(b: B.Session, d: nat, replay: Bytes, last: nat)
    requires b.downBuf.Has(d) && b.downBuf.From(d) == replay
    ensures Tag(last, B.AttachReply(b, d)) ==
            [Item(Some(last), AttachOk(b.upstreamWritten))] +
            ((if replay == [] then [] else [Item(Some(last), Data(d, replay))]) +
             (if b.downClosed then [Item(Some(last), CloseDown)] else []))
  {
  }

  /** The replies to an attach at the sidecar's own offset: the rest of the stream, then the close. */
  lemma WholeReplyFlows(i: Incarnation, inc: nat, d: nat, agentSent: Bytes, marks: seq<nat>)
    requires IncarnationTrue(i, agentSent, d) && inc < |marks| && marks[inc] == CloseMark(i)
    requires d <= |i.sent|
    ensures var q := Tag(inc, B.AttachReply(i.s, d)); Flows(q, d, marks) && Reach(q, d) == |i.sent|
  {
    hide Flows, Reach, Tag, B.AttachReply;
    FromIsTail(i.s.downBuf, i.sent, d);
    ReplyInOrder(i.s, d, B.Replay(i.s, d), inc);
    var replay := B.Replay(i.s, d);
    var ok, data, close := Item(Some(inc), AttachOk(i.s.upstreamWritten)), Item(Some(inc), Data(d, replay)),
        Item(Some(inc), CloseDown);
    var q1 := if replay != [] then [data] else [];
    var q2 := if i.s.downClosed then [close] else [];
    assert Tag(inc, B.AttachReply(i.s, d)) == [ok] + (q1 + q2);
    OneFlows(ok, d, marks);
    OneFlows(data, d, marks);
    OneFlows(close, |i.sent|, marks);
    EmptyFlows(d, marks);
    EmptyFlows(|i.sent|, marks);
    FlowsAppend(q1, q2, d, marks);
    FlowsAppend([ok], q1 + q2, d, marks);
  }

  /** An attach beyond the end, which a recreated session may get, is answered by ATTACH_OK alone. */
  lemma BeyondReplyFlows(i: Incarnation, inc: nat, d: nat, agentSent: Bytes, marks: seq<nat>)
    requires IncarnationTrue(i, agentSent, d) && d > |i.sent|
    ensures var q := Tag(inc, B.AttachReply(i.s, d)); Flows(q, d, marks) && Reach(q, d) == d
  {
    var ok := Item(Some(inc), AttachOk(i.s.upstreamWritten));
    assert Tag(inc, B.AttachReply(i.s, d)) == [ok];
    OneFlows(ok, d, marks);
  }

  lemma ReplyFlows(i: Incarnation, inc: nat, d: nat, k: nat, agentSent: Bytes, marks: seq<nat>)
    requires IncarnationTrue(i, agentSent, d) && inc < |marks| && marks[inc] == CloseMark(i)
    requires k <= |B.AttachReply(i.s, d)|
    ensures var q := Tag(inc, B.AttachReply(i.s, d)[..k]);
            Flows(q, d, marks) && (k == |B.AttachReply(i.s, d)| ==> Reach(q, d) == Max(d, |i.sent|))
  {
    hide B.AttachReply, IncarnationTrue, Flows, Reach;
    var reply := B.AttachReply(i.s, d);
    if d <= |i.sent| {
      WholeReplyFlows(i, inc, d, agentSent, marks);
    } else {
      BeyondReplyFlows(i, inc, d, agentSent, marks);
    }
    assert Tag(inc, reply[..k]) == Tag(inc, reply)[..k];
    FlowsPrefix(Tag(inc, reply), k, d, marks);
    assert k == |reply| ==> reply[..k] == reply;
  }

  lemma NewestAttachFlow(s: State, budget: nat)
    requires Safe(s) && s.incs != [] && s.tunnels != []
    requires s.Newest().down == []
    ensures var e := |s.tunnels| - 1;
            Flowing(Act(s, B.OnAttach(s.Cur().s, e, |s.agentGot|, budget), Some(e), []))
  {
    hide Act, Flows, Reach, B.AttachReply, B.Transmit, Safe, IncarnationTrue, Marks;
    var e, d := |s.tunnels| - 1, |s.agentGot|;
    var i := s.Cur();
    SafeFacts(s);
    CurrentTrue(s);
    var eff := B.OnAttach(i.s, e, d, budget);
    var reply := B.AttachReply(i.s, d);
    B.TransmitFacts(B.Bind(i.s, e), reply, budget);
    ActChanges(s, eff, Some(e), []);
    assert i.sent + [] == i.sent;
    assert eff.sent == reply[..|eff.sent|];
    var s' := Act(s, eff, Some(e), []);
    LastMark(s');
    ReplyFlows(i, |s.incs| - 1, d, |eff.sent|, s.agentSent, Marks(s'.incs));
    EmptyFlows(d, Marks(s'.incs));
    assert [] + Tag(|s.incs| - 1, eff.sent) == Tag(|s.incs| - 1, eff.sent);
  }

  // ---------------------------------------------------------------- steps

  /** A new incarnation, from whatever tunnel. */
  lemma CreateFlow(s: State, e: nat)
    requires Safe(s) && Flowing(s) && e < |s.tunnels|
    requires e == |s.tunnels| - 1 ==> s.Newest().down == []
    ensures Flowing(Create(s, e))
  {
    if !s.c.dead { FlowsMarks(s.Newest().down, |s.agentGot|, Marks(s.incs), Marks(Create(s, e).incs)); }
  }

  /** The broker reads a frame that introduces the session. */
  lemma IntroFlow(s: State, e: nat, d: nat, budget: nat)
    requires Safe(s) && Flowing(s) && s.started && e < |s.tunnels|
    requires e == |s.tunnels| - 1 ==> s.Newest().down == [] && d == |s.agentGot|
    ensures s.inTable ==> Flowing(Act(s, B.OnAttach(s.Cur().s, e, d, budget), Some(e), []))
    ensures !s.inTable && d == 0 ==>
              && Flowing(Create(s, e))
              && Flowing(Act(Create(s, e), B.OnAttach(Create(s, e).Cur().s, e, 0, budget), Some(e), []))
  {
    hide Act, B.OnAttach, Flowing, Safe;
    SafeFacts(s);
    if s.inTable {
      if e == |s.tunnels| - 1 { NewestAttachFlow(s, budget); } else { StaleAttachFlow(s, e, d, budget); }
    } else if d == 0 {
      CreateFlow(s, e);
      CreateSafe(s, e);
      if e == |s.tunnels| - 1 {
        NewestAttachFlow(Create(s, e), budget);
      } else {
        StaleAttachFlow(Create(s, e), e, 0, budget);
      }
    }
  }

  /** The close for a session that the broker does not hold. */
  lemma LostSessionFlow(s: State, e: nat)
    requires Flowing(s) && e < |s.tunnels|
    ensures Flowing(s.(tunnels := s.tunnels[e := PushDown(s.tunnels[e], [Item(None, CloseDown)], false)]))
  {
    hide Flows, Reach;
    var item := Item(None, CloseDown);
    if e == |s.tunnels| - 1 && !s.c.dead {
      FlowsAppend(s.Newest().down, [item], |s.agentGot|, Marks(s.incs));
      OneFlows(item, Reach(s.Newest().down, |s.agentGot|), Marks(s.incs));
    }
  }

  lemma PopUpFaithful(s: State, e: nat)
    requires Faithful(s)
    requires e < |s.tunnels| && s.tunnels[e].up != []
    ensures Faithful(PopUp(s, e))
  {
    ShrinkSafe(s, e, s.tunnels[e].(up := s.tunnels[e].up[1..]));
    PopUpOrdered(s, e);
  }

  lemma MarkFailureFaithful(s: State, failed: bool)
    requires Faithful(s) && s.incs != []
    ensures Faithful(MarkFailure(s, failed))
  {
    MarkFailureSafe(s, failed);
    MarkFailureOrdered(s, failed);
    SameMarks(s.incs, MarkFailure(s, failed).incs);
  }

  lemma HandleFlow(s: State, e: nat, m: Msg, upstreamOk: bool, budget: nat)
    requires Faithful(s) && s.started && e < |s.tunnels|
    requires e == |s.tunnels| - 1 && IsIntro(m) ==> s.Newest().down == [] && IntroAt(m, |s.agentGot|)
    ensures Flowing(Handle(s, e, m, upstreamOk, budget))
  {
    hide Act, SetSession, Flowing, Ordered, Safe, MarkFailure, B.OnData, B.OnAttach;
    SafeFacts(s);
    match m {
      case Data(offset, p) =>
        if s.inTable {
          var b := s.Cur().s;
          var failed := WritesUpstream(b, offset, p) && !upstreamOk;
          MarkFailureFaithful(s, failed);
          MarkFailureOrdered(s, failed);
          OnDataOrderly(MarkFailure(s, failed).Cur(), offset, p, upstreamOk, budget);
          OrderlyFlow(MarkFailure(s, failed), B.OnData(b, offset, p, upstreamOk, budget), []);
        }
      case Ack(offset) => if s.inTable { SilentFlow(s, B.OnAck(s.Cur().s, offset)); }
      case CloseUp => if s.inTable { SilentFlow(s, B.OnSidecarClose(s.Cur().s)); }
      case Open => IntroFlow(s, e, 0, budget);
      case Attach(d) =>
        IntroFlow(s, e, d, budget);
        LostSessionFlow(s, e);
      case _ =>
    }
  }

  lemma BrokerReadFlow(s: State, e: nat, upstreamOk: bool, budget: nat)
    requires Faithful(s)
    requires Enabled(s, BrokerReads(e, upstreamOk, budget))
    ensures Flowing(BrokerRead(s, e, upstreamOk, budget))
  {
    PopUpFaithful(s, e);
    HandleFlow(PopUp(s, e), e, s.tunnels[e].up[0], upstreamOk, budget);
  }

  lemma SendUpFlow(s: State, msgs: seq<Msg>)
    requires s.linked ==> s.tunnels != []
    ensures Flowing(SendUp(s, msgs)) <==> Flowing(s)
  {
    hide SendUp, QueueFlows;
    SendUpChanges(s, msgs);
  }

  lemma QueueFront(q: seq<Item>, cut: bool, d: nat, marks: seq<nat>, total: nat, bound: bool)
    requires q != []
    requires QueueFlows(q, cut, d, marks, total, bound)
    ensures QueueFlows(q[1..], cut, After(q[0], d), marks, total, bound)
  {
    ReachAhead(q[1..], After(q[0], d));
  }

  /** The state after the front frame has moved the sidecar to `d`. */
  ghost predicate FlowsFrom(s: State, d: nat) {
    s.tunnels != [] && QueueFlows(s.Newest().down, s.Newest().downCut, d, Marks(s.incs), Total(s), BoundToNewest(s))
  }

  lemma DeliveredFlow(s: State, inc: Option<nat>, added: Bytes)
    requires FlowsFrom(s, |s.agentGot| + |added|)
    ensures Flowing(Delivered(s, inc, added))
    ensures Delivered(s, inc, added).linked ==> Delivered(s, inc, added).tunnels != []
  {
    hide QueueFlows;
  }

  /** The sidecar takes a DATA frame: its position moves as the queue foretells. */
  lemma DataFlow(s: State, inc: Option<nat>, offset: nat, p: Bytes, agentOk: bool)
    requires Safe(s) && !s.c.dead
    requires FlowsFrom(s, NextMark(|s.agentGot|, offset, p))
    ensures Flowing(Dispatch(s, Item(inc, Data(offset, p)), agentOk))
  {
    hide Dispatch, SendUp, QueueFlows, Safe, Delivered, BoundToNewest;
    SafeFacts(s);
    DispatchData(s, inc, offset, p, agentOk);
    if Accepts(|s.agentGot|, offset, p) {
      var added := Fresh(|s.agentGot|, offset, p);
      DeliveredFlow(s, inc, added);
      SendUpFlow(Delivered(s, inc, added), [Ack(|s.agentGot| + |added|)]);
    }
  }

  lemma ReattachedFlow(s: State, offset: nat, synced: Option<nat>)
    requires FlowsFrom(s, |s.agentGot|)
    ensures var o := C.OnAttachOk(s.c, offset); Flowing(SendUp(s.(c := o.c, synced := synced), o.send))
  {
    hide QueueFlows, SendUp, C.OnAttachOk;
    var o := C.OnAttachOk(s.c, offset);
    SendUpFlow(s.(c := o.c, synced := synced), o.send);
  }

  lemma QuietReadFlow(s: State, c: C.Client)
    requires FlowsFrom(s, |s.agentGot|)
    ensures Flowing(s) && Flowing(s.(c := c))
  {
    hide QueueFlows;
  }

  lemma DispatchFlow(s: State, item: Item, agentOk: bool)
    requires Safe(s) && !s.c.dead
    requires FlowsFrom(s, After(item, |s.agentGot|))
    ensures Flowing(Dispatch(s, item, agentOk))
  {
    hide FlowsFrom, SendUp, C.DeliverDown, C.OnAttachOk, C.OnClose, C.Serves, Safe, Flowing;
    SafeFacts(s);
    match item.msg {
      case Data(offset, p) => DataFlow(s, item.inc, offset, p, agentOk);
      case AttachOk(offset) => ReattachedFlow(s, offset, if C.Serves(s.c, offset) then item.inc else None);
      case Ack(offset) => QuietReadFlow(s, C.OnUpstreamAck(s.c, offset));
      case CloseDown => QuietReadFlow(s, C.OnClose(s.c, agentOk));
      case _ => QuietReadFlow(s, s.c);
    }
  }

  /** Taking the front frame off the newest tunnel. */
  lemma PopDownFacts(s: State)
    requires Safe(s) && s.tunnels != [] && s.Newest().down != []
    ensures Safe(PopDown(s)) && ItemTrue(s.Newest().down[0], s.incs)
    ensures var s1 := PopDown(s);
            && s1.Newest() == s.Newest().(down := s.Newest().down[1..])
            && s1 == s.(tunnels := s1.tunnels) && s1.tunnels != []
            && BoundToNewest(s1) == BoundToNewest(s)
  {
    var t := s.Newest();
    assert TunnelTrue(t, s.agentSent, |s.agentGot|, s.incs) && ItemTrue(t.down[0], s.incs);
    ShrinkSafe(s, |s.tunnels| - 1, t.(down := t.down[1..]));
  }

  lemma ClientReadFlow(s: State, agentOk: bool)
    requires Faithful(s)
    requires Enabled(s, ClientReads(agentOk))
    ensures Flowing(ClientRead(s, agentOk))
  {
    hide QueueFlows, Dispatch, Ordered, Safe, PopDown, BoundToNewest, ItemTrue, Marks, After;
    var t, s1 := s.Newest(), PopDown(s);
    PopDownFacts(s);
    if s.c.dead {
      DispatchDead(s1, t.down[0], agentOk);
    } else {
      QueueFront(t.down, t.downCut, |s.agentGot|, Marks(s.incs), Total(s), BoundToNewest(s));
      DispatchFlow(s1, t.down[0], agentOk);
    }
  }

  lemma DispatchDead(s: State, item: Item, agentOk: bool)
    requires s.c.dead && (s.linked ==> s.tunnels != [])
    ensures Dispatch(s, item, agentOk) == s
  {
  }

  lemma WroteFlow(s: State, chunk: Bytes)
    requires Faithful(s)
    requires Enabled(s, AgentWrites(chunk))
    ensures Flowing(Wrote(s, chunk))
  {
    hide SendUp, QueueFlows, Safe, Ordered;
    var o := C.WriteUp(s.c, chunk);
    SendUpFlow(s.(c := o.c, agentSent := s.agentSent + chunk), o.send);
  }

  lemma SidecarFields(s: State)
    requires Flowing(s)
    ensures Flowing(s.(started := true, synced := Some(0))) && Flowing(s.(attachDue := false))
    ensures Flowing(s.(c := C.CloseUp(s.c).c))
  {
    hide QueueFlows;
  }

  lemma SidecarFlow(s: State)
    requires Faithful(s)
    ensures Enabled(s, OpenSession) ==> Flowing(Started(s))
    ensures Enabled(s, AgentCloses) ==> Flowing(FinishedWriting(s))
    ensures Enabled(s, SendAttach) ==> Flowing(SentAttach(s))
  {
    hide SendUp, QueueFlows, Safe, Ordered, Flowing;
    SafeFacts(s);
    SidecarFields(s);
    SendUpFlow(s.(started := true, synced := Some(0)), [Open]);
    SendUpFlow(s.(c := C.CloseUp(s.c).c), C.CloseUp(s.c).send);
    SendUpFlow(s.(attachDue := false), [C.AttachFrame(s.c)]);
  }

  lemma ConnectFlow(s: State)
    requires Faithful(s)
    requires Enabled(s, Connect)
    ensures Flowing(Connected(s))
  {
    hide Safe, Ordered;
    SafeFacts(s);
  }

  lemma FlagsFlow(s: State)
    requires Faithful(s)
    ensures Flowing(s.(linked := false, attachDue := false))
    ensures Flowing(s.(inTable := false))
  {
    hide Safe, Ordered, QueueFlows;
  }

  lemma LostUpFlow(s: State, e: nat, keep: nat)
    requires Faithful(s)
    requires Enabled(s, CutUp(e, keep))
    ensures Flowing(LostUp(s, e, keep))
  {
    hide Safe, Ordered, QueueFlows;
  }

  lemma LostDownFlow(s: State, e: nat, keep: nat)
    requires Faithful(s)
    requires Enabled(s, CutDown(e, keep))
    ensures Flowing(LostDown(s, e, keep))
  {
    hide Safe, Ordered, Flows, Reach;
    if e == |s.tunnels| - 1 && !s.c.dead { FlowsPrefix(s.Newest().down, keep, |s.agentGot|, Marks(s.incs)); }
  }

  lemma ShutFaithful(s: State, e: nat)
    requires Faithful(s) && e < |s.tunnels|
    ensures Faithful(ShutTunnel(s, e))
  {
    hide QueueFlows, Safe, Ordered;
    ShrinkSafe(s, e, s.tunnels[e].(brokerOpen := false));
    ShutOrdered(s, e);
  }

  lemma DroppedFlow(s: State, e: nat)
    requires Faithful(s)
    requires Enabled(s, BrokerDrops(e))
    ensures Flowing(Dropped(s, e))
  {
    hide Safe, Ordered, Flowing;
    ShutFaithful(s, e);
    if s.incs != [] { SilentFlow(ShutTunnel(s, e), B.Detach(s.Cur().s, e).s); }
  }

  lemma DialledFlow(s: State, flushOk: bool, budget: nat)
    requires Faithful(s)
    requires Enabled(s, DialDone(flushOk, budget))
    ensures Flowing(Dialled(s, flushOk, budget))
  {
    hide Act, MarkFailure, B.DialDone, Flowing, Safe, Ordered;
    var b := s.Cur().s;
    var failed := b.preConn != [] && !flushOk;
    MarkFailureFaithful(s, failed);
    MarkFailureOrdered(s, failed);
    DialDoneOrderly(MarkFailure(s, failed).Cur(), flushOk, budget);
    OrderlyFlow(MarkFailure(s, failed), B.DialDone(b, flushOk, budget), []);
  }

  lemma UpstreamFlow(s: State, budget: nat)
    requires Faithful(s)
    ensures Enabled(s, DialFails(budget)) ==> Flowing(DialRefused(s, budget))
    ensures Enabled(s, UpstreamEof(budget)) ==> Flowing(Ended(s, budget))
  {
    hide Act, B.DialFailed, B.UpstreamEof, Flowing, Safe, Ordered;
    if Enabled(s, DialFails(budget)) {
      CurrentTrue(s);
      DialFailedOrderly(s.Cur(), budget);
      OrderlyFlow(s, B.DialFailed(s.Cur().s, budget), []);
    }
    if Enabled(s, UpstreamEof(budget)) {
      EofOrderly(s.Cur(), budget);
      OrderlyFlow(s, B.UpstreamEof(s.Cur().s, budget), []);
    }
  }

  lemma FiredFlow(s: State)
    requires Faithful(s)
    requires Enabled(s, WatchdogFires)
    ensures Flowing(Fired(s))
  {
    hide Flowing, Safe, Ordered;
    SilentFlow(s, s.Cur().s.(watchdog := false));
    ActChanges(s, B.WatchdogFires(s.Cur().s), None, []);
  }

  lemma ProducedFlow(s: State, chunk: Bytes, writeOk: bool)
    requires Faithful(s)
    requires Enabled(s, UpstreamSends(chunk, writeOk))
    ensures Flowing(Produced(s, chunk, writeOk))
  {
    hide Act, B.Produce, Flowing, Safe, Ordered;
    CurrentTrue(s);
    ProduceOrderly(s.Cur(), chunk, writeOk);
    OrderlyFlow(s, B.Produce(s.Cur().s, chunk, writeOk), chunk);
  }

  /** Every step keeps the invariant. */
  lemma StepFaithful(s: State, a: Action)
    requires Faithful(s)
    requires Enabled(s, a)
    ensures Faithful(Step(s, a))
  {
    hide Started, Wrote, FinishedWriting, Connected, SentAttach, ClientRead, LostUp, LostDown, BrokerRead;
    hide Dropped, Dialled, DialRefused, Produced, Ended, Fired, Safe, Ordered, Flowing;
    StepSafe(s, a);
    StepOrdered(s, a);
    match a {
      case OpenSession => SidecarFlow(s);
      case AgentWrites(chunk) => WroteFlow(s, chunk);
      case AgentCloses => SidecarFlow(s);
      case Connect => ConnectFlow(s);
      case SendAttach => SidecarFlow(s);
      case Disconnect => FlagsFlow(s);
      case ClientReads(agentOk) => ClientReadFlow(s, agentOk);
      case CutUp(e, keep) => LostUpFlow(s, e, keep);
      case CutDown(e, keep) => LostDownFlow(s, e, keep);
      case BrokerReads(e, upstreamOk, budget) => BrokerReadFlow(s, e, upstreamOk, budget);
      case BrokerDrops(e) => DroppedFlow(s, e);
      case DialDone(flushOk, budget) => DialledFlow(s, flushOk, budget);
      case DialFails(budget) => UpstreamFlow(s, budget);
      case UpstreamSends(chunk, writeOk) => ProducedFlow(s, chunk, writeOk);
      case UpstreamEof(budget) => UpstreamFlow(s, budget);
      case WatchdogFires => FiredFlow(s);
      case Remove => FlagsFlow(s);
    }
  }

  lemma {:induction false} RunFaithful(s: State, run: seq<Action>)
    requires Faithful(s)
    requires Legal(s, run)
    ensures Faithful(Exec(s, run))
    decreases |run|
  {
    hide Faithful, Step, Enabled;
    if run != [] {
      StepFaithful(s, run[0]);
      RunFaithful(Step(s, run[0]), run[1..]);
    }
  }

  lemma InitFaithful(upMax: nat, downMax: nat)
    ensures Faithful(Init(upMax, downMax))
  {
  }
}
