/** What the flags of a broker session remember of its history, over every sequence of events; when it loses its
    binding; and what it says when it wakes. */
module Flags {
  import opened Streams
  import opened Messages
  import B = BrokerSessions
  import W = WakePolicy
  import Wire

  datatype Flag = UpClosed | DownClosed | Connected | Reading | Outstanding | Armed

  predicate Holds(s: B.Session, f: Flag) {
    match f
    case UpClosed => s.upClosed
    case DownClosed => s.downClosed
    case Connected => s.connected
    case Reading => s.reading
    case Outstanding => s.requestOutstanding
    case Armed => s.watchdog
  }

  /** A write to upstream, of queued or of received bytes, is tried and fails. */
  predicate WriteFails(s: B.Session, ev: W.Event) {
    match ev
    case Dialled(flushOk, _) => !s.dead && s.preConn != [] && !flushOk
    case Received(offset, p, upstreamOk, _) =>
      !s.dead && s.connected && Accepts(s.upstreamWritten, offset, p) && !upstreamOk
    case _ => false
  }

  /** Upstream ends, or a write to it fails. */
  predicate Closes(s: B.Session, ev: W.Event) { ev.Eof? || WriteFails(s, ev) }

  /** The acknowledgement leaves nothing in the buffer. */
  predicate Drains(s: B.Session, ev: W.Event) { ev.Acked? && s.downBuf.End() <= Max(ev.offset, s.downBuf.base) }

  function Max(a: nat, b: nat): nat { if a < b then b else a }

  /** The event after which the flag holds whatever was before. */
  predicate Sets(s: B.Session, f: Flag, ev: W.Event) {
    match f
    case UpClosed => ev.SidecarClose?
    case DownClosed => Closes(s, ev)
    case Connected => ev.Dialled? && !s.dead
    case Reading => ev.Dialled? && !s.dead && !WriteFails(s, ev)
    case Outstanding => W.WritesUp(s, ev)
    case Armed => !s.dead && (ev.Dialled? || W.WritesUp(s, ev)) && !Ends(s, ev)
  }

  /** The event that ends a live session: its dial fails, or it closes the second half of a drained session. */
  predicate Ends(s: B.Session, ev: W.Event) {
    !s.dead &&
    (|| ev.DialFails?
     || (s.downBuf.bytes == [] && s.upClosed && !s.downClosed && Closes(s, ev))
     || (s.downBuf.bytes == [] && s.downClosed && ev.SidecarClose?))
  }

  /** The event after which the flag no longer holds. */
  predicate Clears(s: B.Session, f: Flag, ev: W.Event) {
    match f
    case UpClosed => false
    case DownClosed => false
    case Connected => false
    case Reading => ev.Eof?
    case Outstanding => Drains(s, ev)
    case Armed => ev.Fires? || ev.DialFails? || Ends(s, ev)
  }

  /** The flag after the event is what the two say. */
  predicate Follows(s: B.Session, ev: W.Event, f: Flag) {
    Holds(W.Do(s, ev).s, f) <==> Sets(s, f, ev) || (Holds(s, f) && !Clears(s, f, ev))
  }

  /** Sending changes no flag. */
  lemma SendKeeps(s: B.Session, msgs: seq<Msg>, budget: nat)
    ensures var s' := B.Transmit(s, msgs, budget).s; s' == s.(tconn := s'.tconn)
  {
    B.TransmitFacts(s, msgs, budget);
  }

  predicate EndsWithClose(s: B.Session) { !s.dead && !s.downClosed && s.upClosed && s.downBuf.bytes == [] }

  lemma CloseKeeps(s: B.Session, budget: nat)
    ensures var s' := B.CloseUpstream(s, budget).s;
            s' == s.(tconn := s'.tconn, downClosed := true, dead := s.dead || EndsWithClose(s),
                     watchdog := s.watchdog && !EndsWithClose(s))
  {
    hide B.Transmit;
    SendKeeps(s.(downClosed := true), [CloseDown], budget);
  }

  lemma DialNext(s: B.Session, flushOk: bool, budget: nat, f: Flag)
    ensures Follows(s, W.Dialled(flushOk, budget), f)
  {
    hide B.Transmit, B.CloseUpstream;
    var s1 := s.(connected := true, preConn := [], watchdog := true);
    CloseKeeps(s1, budget);
    var written := s.upstreamWritten + |s.preConn|;
    SendKeeps(s1.(reading := true, upstreamWritten := written, requestOutstanding := true), [Ack(written)], budget);
  }

  lemma DataNext(s: B.Session, offset: nat, p: Bytes, upstreamOk: bool, budget: nat, f: Flag)
    ensures Follows(s, W.Received(offset, p, upstreamOk, budget), f)
  {
    hide B.Transmit, B.CloseUpstream;
    CloseKeeps(s, budget);
    if Accepts(s.upstreamWritten, offset, p) {
      var written := s.upstreamWritten + |Fresh(s.upstreamWritten, offset, p)|;
      SendKeeps(s.(upstreamWritten := written, requestOutstanding := true, watchdog := true), [Ack(written)], budget);
    }
  }

  lemma AckNext(s: B.Session, offset: nat, f: Flag)
    ensures Follows(s, W.Acked(offset), f)
  {
  }

  lemma CloseNext(s: B.Session, budget: nat, f: Flag)
    ensures Follows(s, W.Eof(budget), f) && Follows(s, W.SidecarClose, f)
  {
    hide B.CloseUpstream;
    CloseKeeps(s.(reading := false), budget);
  }

  lemma SendNext(s: B.Session, tc: nat, delivered: nat, budget: nat, f: Flag)
    ensures Follows(s, W.Attached(tc, delivered, budget), f) && Follows(s, W.DialFails(budget), f)
  {
    hide B.Transmit, B.AttachReply;
    SendKeeps(B.Bind(s, tc), B.AttachReply(s, delivered), budget);
    SendKeeps(s, [CloseDown], budget);
  }

  lemma ProduceNext(s: B.Session, chunk: Bytes, writeOk: bool, f: Flag)
    ensures Follows(s, W.Produce(chunk, writeOk), f)
  {
    hide B.Produce;
    ProduceKeeps(s, chunk, writeOk);
  }

  lemma ProduceKeeps(s: B.Session, chunk: Bytes, writeOk: bool)
    ensures var s' := B.Produce(s, chunk, writeOk).s; s' == s.(tconn := s'.tconn, downBuf := s'.downBuf)
  {
  }

  lemma DropNext(s: B.Session, tc: nat, f: Flag)
    ensures Follows(s, W.Drop(tc), f)
  {
  }

  lemma FiresNext(s: B.Session, f: Flag)
    ensures Follows(s, W.Fires, f)
  {
  }

  lemma FlagNext(s: B.Session, ev: W.Event, f: Flag)
    ensures Follows(s, ev, f)
  {
    hide Follows;
    match ev
    case Dialled(flushOk, budget) => DialNext(s, flushOk, budget, f);
    case Received(offset, p, upstreamOk, budget) => DataNext(s, offset, p, upstreamOk, budget, f);
    case Attached(tc, delivered, budget) => SendNext(s, tc, delivered, budget, f);
    case DialFails(budget) => SendNext(s, 0, 0, budget, f);
    case Acked(offset) => AckNext(s, offset, f);
    case Eof(budget) => CloseNext(s, budget, f);
    case SidecarClose => CloseNext(s, 0, f);
    case Drop(tc) => DropNext(s, tc, f);
    case Produce(chunk, writeOk) => ProduceNext(s, chunk, writeOk, f);
    case Fires => FiresNext(s, f);
  }

  // ---------------------------------------------------------------- every history

  /** The session after the first `k` events. */
  function At(max: nat, run: seq<W.Event>, k: nat): B.Session
    requires k <= |run|
  {
    W.Run(W.Created(max), run[..k]).s
  }

  /** Event `k` set the flag, and none after it has cleared it. */
  ghost predicate SetLast(max: nat, run: seq<W.Event>, f: Flag, k: nat)
    requires k < |run|
  {
    Sets(At(max, run, k), f, run[k]) && forall j :: k < j < |run| ==> !Clears(At(max, run, j), f, run[j])
  }

  /** Over every history a flag holds if and only if some event set it and none after that cleared it: the
      sidecar has closed; upstream has ended or a write to it has failed; the dial has completed, and upstream
      has not ended since; upstream was written to and not everything acknowledged since; the watchdog was
      armed, and has neither fired since nor has the session ended. */
  lemma {:induction false} FlagsRemember(max: nat, run: seq<W.Event>, f: Flag)
    ensures Holds(W.Run(W.Created(max), run).s, f) <==> exists k :: 0 <= k < |run| && SetLast(max, run, f, k)
    decreases |run|
  {
    hide Holds, Sets, Clears, W.Do, W.Run;
    if run == [] {
      NothingHolds(max, f);
      assert run == [];
    } else {
      var n := |run| - 1;
      var before, ev := run[..n], run[n];
      assert run == before + [ev];
      FlagsRemember(max, before, f);
      LastEvent(max, before, ev, f);
      forall k | 0 <= k < n
        ensures SetLast(max, run, f, k) <==> SetLast(max, before, f, k) && !Clears(At(max, run, n), f, ev)
      {
        Shorter(max, run, n, k, f);
      }
      assert SetLast(max, run, f, n) <==> Sets(At(max, run, n), f, ev);
    }
  }

  lemma NothingHolds(max: nat, f: Flag)
    ensures !Holds(W.Run(W.Created(max), []).s, f)
  {
  }

  lemma LastEvent(max: nat, before: seq<W.Event>, ev: W.Event, f: Flag)
    ensures var run, n := before + [ev], |before|;
            && At(max, run, n) == W.Run(W.Created(max), before).s
            && (Holds(W.Run(W.Created(max), run).s, f) <==>
                  Sets(At(max, run, n), f, ev) || (Holds(At(max, run, n), f) && !Clears(At(max, run, n), f, ev)))
  {
    hide W.Do, W.Run, Holds, Sets, Clears;
    var run, n := before + [ev], |before|;
    assert run[..n] == before;
    W.RunThen(W.Created(max), before, [ev]);
    OneEvent(W.Run(W.Created(max), before), ev);
    FlagNext(At(max, run, n), ev, f);
  }

  lemma OneEvent(w: W.Watched, ev: W.Event)
    ensures W.Run(w, [ev]).s == W.Do(w.s, ev).s
  {
    hide W.Do;
    assert [ev][1..] == [];
  }

  lemma Shorter(max: nat, run: seq<W.Event>, n: nat, k: nat, f: Flag)
    requires n == |run| - 1 && k < n
    ensures SetLast(max, run, f, k) <==> SetLast(max, run[..n], f, k) && !Clears(At(max, run, n), f, run[n])
  {
    hide Sets, Clears, W.Run;
    forall j | 0 <= j < n ensures At(max, run, j) == At(max, run[..n], j) && run[..n][j] == run[j] {
      assert run[..n][..j] == run[..j];
    }
  }

  // ---------------------------------------------------------------- the binding

  /** The tunnel the event finds the session bound to; an attach binds first. */
  function BoundFor(s: B.Session, ev: W.Event): Option<nat> { if ev.Attached? then Some(ev.tc) else s.tconn }

  /** The tunnel takes whatever the event may have to write to it. */
  predicate Accepting(s: B.Session, ev: W.Event) {
    match ev
    case Attached(_, delivered, budget) =>
      budget >= 3 && (s.downBuf.base <= delivered ==> s.downBuf.End() <= delivered + Wire.MAX_PAYLOAD)
    case Produce(chunk, writeOk) => writeOk && |chunk| <= Wire.MAX_PAYLOAD
    case Dialled(_, budget) => budget >= 1
    case DialFails(budget) => budget >= 1
    case Received(_, _, _, budget) => budget >= 1
    case Eof(budget) => budget >= 1
    case _ => true
  }

  predicate StaysBound(s: B.Session, ev: W.Event, e: B.Effect) {
    var bound := BoundFor(s, ev);
    && (e.s.tconn == bound || e.s.tconn == None)
    && (bound.Some? && e.s.tconn == None ==> e.broke || ev == W.Drop(bound.value))
    && (ev.Drop? && s.tconn == Some(ev.tc) ==> e.s.tconn == None)
    && (e.broke ==> bound.Some? && !Accepting(s, ev))
  }

  /** A session stays bound unless it is detached from that very tunnel or a write to it has failed, which none
      does as long as the tunnel takes what the event has to write; and only an attach binds it. */
  lemma StaysBoundUnless(s: B.Session, ev: W.Event)
    ensures StaysBound(s, ev, W.Do(s, ev))
  {
    hide StaysBound, B.CloseUpstream, B.OnAttach, B.DialDone, B.OnData, B.DialFailed, B.Produce, B.UpstreamEof;
    match ev
    case Dialled(flushOk, budget) =>
      DialBound(s, flushOk, budget);
      OneFrameStays(s, ev, B.DialDone(s, flushOk, budget), budget);
    case Received(offset, p, upstreamOk, budget) =>
      DataBound(s, offset, p, upstreamOk, budget);
      OneFrameStays(s, ev, B.OnData(s, offset, p, upstreamOk, budget), budget);
    case Attached(tc, delivered, budget) => AttachStays(s, tc, delivered, budget);
    case DialFails(budget) =>
      DialFailedBound(s, budget);
      OneFrameStays(s, ev, B.DialFailed(s, budget), budget);
    case Eof(budget) =>
      EofBound(s, budget);
      OneFrameStays(s, ev, B.UpstreamEof(s, budget), budget);
    case Produce(chunk, writeOk) => ProduceStays(s, chunk, writeOk);
    case _ => OtherStays(s, ev);
  }

  lemma OneFrameStays(s: B.Session, ev: W.Event, e: B.Effect, budget: nat)
    requires KeepsBinding(s, e, budget) && !ev.Attached? && !ev.Drop? && (budget == 0 ==> !Accepting(s, ev))
    ensures StaysBound(s, ev, e)
  {
  }

  lemma AttachStays(s: B.Session, tc: nat, delivered: nat, budget: nat)
    ensures var ev := W.Attached(tc, delivered, budget); StaysBound(s, ev, W.Do(s, ev))
  {
    hide B.Transmit, B.AttachReply;
    B.TransmitFacts(B.Bind(s, tc), B.AttachReply(s, delivered), budget);
    ReplyFits(s, delivered);
  }

  lemma ProduceStays(s: B.Session, chunk: Bytes, writeOk: bool)
    ensures var ev := W.Produce(chunk, writeOk); StaysBound(s, ev, W.Do(s, ev))
  {
  }

  lemma OtherStays(s: B.Session, ev: W.Event)
    requires ev.Drop? || ev.Acked? || ev.SidecarClose? || ev.Fires?
    ensures StaysBound(s, ev, W.Do(s, ev))
  {
  }

  lemma DialFailedBound(s: B.Session, budget: nat)
    ensures KeepsBinding(s, B.DialFailed(s, budget), budget)
  {
    hide B.Transmit;
    OneFrameBound(s, CloseDown, budget);
  }

  lemma EofBound(s: B.Session, budget: nat)
    ensures KeepsBinding(s, B.UpstreamEof(s, budget), budget)
  {
    hide B.CloseUpstream;
    CloseBound(s.(reading := false), budget);
  }

  lemma ReplyFits(s: B.Session, delivered: nat)
    ensures var reply := B.AttachReply(s, delivered);
            && |reply| <= 3
            && ((s.downBuf.base <= delivered ==> s.downBuf.End() <= delivered + Wire.MAX_PAYLOAD) ==>
                  forall m :: m in reply ==> Encodable(m))
  {
  }

  ghost predicate KeepsBinding(s: B.Session, e: B.Effect, budget: nat) {
    && (e.s.tconn == s.tconn || e.s.tconn == None)
    && (s.tconn.Some? && e.s.tconn == None ==> e.broke)
    && (e.broke ==> s.tconn.Some? && budget == 0)
  }

  lemma OneFrameBound(s: B.Session, m: Msg, budget: nat)
    requires !m.Data?
    ensures KeepsBinding(s, B.Transmit(s, [m], budget), budget)
  {
    B.TransmitFacts(s, [m], budget);
  }

  lemma CloseBound(s: B.Session, budget: nat)
    ensures KeepsBinding(s, B.CloseUpstream(s, budget), budget)
  {
    hide B.Transmit;
    OneFrameBound(s.(downClosed := true), CloseDown, budget);
  }

  lemma DialBound(s: B.Session, flushOk: bool, budget: nat)
    ensures KeepsBinding(s, B.DialDone(s, flushOk, budget), budget)
  {
    hide B.Transmit, B.CloseUpstream;
    var s1 := s.(connected := true, preConn := [], watchdog := true);
    CloseBound(s1, budget);
    var written := s.upstreamWritten + |s.preConn|;
    OneFrameBound(s1.(reading := true, upstreamWritten := written, requestOutstanding := true), Ack(written), budget);
  }

  lemma DataBound(s: B.Session, offset: nat, p: Bytes, upstreamOk: bool, budget: nat)
    ensures KeepsBinding(s, B.OnData(s, offset, p, upstreamOk, budget), budget)
  {
    hide B.Transmit, B.CloseUpstream;
    CloseBound(s, budget);
    if Accepts(s.upstreamWritten, offset, p) {
      var written := s.upstreamWritten + |Fresh(s.upstreamWritten, offset, p)|;
      OneFrameBound(s.(upstreamWritten := written, requestOutstanding := true, watchdog := true), Ack(written), budget);
    }
  }

  // ---------------------------------------------------------------- what a wake says

  /** A wake says why: new bytes or a close that came in while no tunnel was bound, the watchdog, or a binding
      that was lost with something undelivered. */
  lemma WakeSaysWhy(s: B.Session, ev: W.Event)
    requires W.Possible(ev) && W.Do(s, ev).wakes != []
    ensures W.Do(s, ev).wakes == [if ev.Produce? then B.DataOnPending
                                  else if ev.Fires? then B.MaxSuspend
                                  else if BoundFor(s, ev).Some? then B.UndeliveredOnDetach
                                  else B.CloseOnPending]
  {
    hide B.Transmit, B.CloseUpstream, B.AttachReply, B.DialDone, B.OnData;
    W.WakeIff(s, ev);
    match ev
    case Dialled(flushOk, budget) => DialSays(s, flushOk, budget);
    case Received(offset, p, upstreamOk, budget) => DataSays(s, offset, p, upstreamOk, budget);
    case Attached(tc, delivered, budget) => TransmitSays(B.Bind(s, tc), B.AttachReply(s, delivered), budget);
    case DialFails(budget) => TransmitSays(s, [CloseDown], budget);
    case Eof(budget) => CloseSays(s.(reading := false), budget);
    case _ =>
  }

  lemma TransmitSays(s: B.Session, msgs: seq<Msg>, budget: nat)
    ensures var w := B.Transmit(s, msgs, budget).wakes; w == [] || (s.tconn.Some? && w == [B.UndeliveredOnDetach])
  {
    B.TransmitFacts(s, msgs, budget);
  }

  ghost predicate Says(s: B.Session, e: B.Effect) {
    e.wakes == [] || e.wakes == [if s.tconn.Some? then B.UndeliveredOnDetach else B.CloseOnPending]
  }

  lemma CloseSays(s: B.Session, budget: nat)
    ensures Says(s, B.CloseUpstream(s, budget))
  {
    hide B.Transmit;
    TransmitSays(s.(downClosed := true), [CloseDown], budget);
  }

  lemma DialSays(s: B.Session, flushOk: bool, budget: nat)
    ensures Says(s, B.DialDone(s, flushOk, budget))
  {
    hide B.Transmit, B.CloseUpstream;
    var s1 := s.(connected := true, preConn := [], watchdog := true);
    CloseSays(s1, budget);
    var written := s.upstreamWritten + |s.preConn|;
    TransmitSays(s1.(reading := true, upstreamWritten := written, requestOutstanding := true), [Ack(written)], budget);
  }

  lemma DataSays(s: B.Session, offset: nat, p: Bytes, upstreamOk: bool, budget: nat)
    ensures Says(s, B.OnData(s, offset, p, upstreamOk, budget))
  {
    hide B.Transmit, B.CloseUpstream;
    CloseSays(s, budget);
    if Accepts(s.upstreamWritten, offset, p) {
      var written := s.upstreamWritten + |Fresh(s.upstreamWritten, offset, p)|;
      TransmitSays(s.(upstreamWritten := written, requestOutstanding := true, watchdog := true), [Ack(written)],
                   budget);
    }
  }
}
