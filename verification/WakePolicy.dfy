/** When the broker wakes a suspended actor: over every sequence of events on one session, exactly when
    a wake is issued, that none is lost and that none is spurious. */
module WakePolicy {
  import opened Streams
  import opened Messages
  import B = BrokerSessions

  /** `budget` is how many frames the tunnel takes before a write fails; a write that "succeeds" may
      still have gone into a dead socket. */
  datatype Event =
    | Attached(tc: nat, delivered: nat, budget: nat)
    | Drop(tc: nat)
    | Dialled(flushOk: bool, budget: nat)
    | DialFails(budget: nat)
    | Produce(chunk: Bytes, writeOk: bool)
    | Received(offset: nat, p: Bytes, upstreamOk: bool, budget: nat)
    | Acked(offset: nat)
    | SidecarClose
    | Eof(budget: nat)
    | Fires

  /** The read loop hands over no empty chunk. */
  predicate Possible(ev: Event) { ev.Produce? ==> ev.chunk != [] }

  function Do(s: B.Session, ev: Event): B.Effect {
    match ev
    case Attached(tc, delivered, budget) => B.OnAttach(s, tc, delivered, budget)
    case Drop(tc) => B.Detach(s, tc)
    case Dialled(flushOk, budget) => B.DialDone(s, flushOk, budget)
    case DialFails(budget) => B.DialFailed(s, budget)
    case Produce(chunk, writeOk) => B.Produce(s, chunk, writeOk)
    case Received(offset, p, upstreamOk, budget) => B.OnData(s, offset, p, upstreamOk, budget)
    case Acked(offset) => B.Quiet(B.OnAck(s, offset))
    case SidecarClose => B.Quiet(B.OnSidecarClose(s))
    case Eof(budget) => B.UpstreamEof(s, budget)
    case Fires => B.WatchdogFires(s)
  }

  /** The events that write to upstream, and so start a request. */
  predicate WritesUp(s: B.Session, ev: Event) {
    match ev
    case Dialled(flushOk, _) => !s.dead && s.preConn != [] && flushOk
    case Received(offset, p, upstreamOk, _) => !s.dead && s.connected && Accepts(s.upstreamWritten, offset, p)
        && upstreamOk
    case _ => false
  }

  // ---------------------------------------------------------------- exactly when a step wakes

  predicate Pending(s: B.Session) { s.requestOutstanding && B.Undelivered(s) }

  /** The step took the binding away; an attach binds first. */
  predicate Unbinds(s: B.Session, binds: bool, s': B.Session) { s'.tconn.None? && (s.tconn.Some? || binds) }

  /** The step gave the session something to deliver that it did not have before. */
  predicate Adds(s: B.Session, s': B.Session) { s.downBuf.End() < s'.downBuf.End() || (!s.downClosed && s'.downClosed) }

  /** What every step other than the watchdog's keeps to. It wakes once, exactly when it leaves a detached
      session with a request outstanding and something undelivered that is news. Exactly a write to
      upstream makes a request outstanding, and it arms the watchdog, which only the end of the session
      disarms. What is
      owed without news was owed before. */
  predicate Policy(s: B.Session, binds: bool, writes: bool, e: B.Effect) {
    && |e.wakes| <= 1
    && (e.wakes != [] <==> e.s.tconn.None? && Pending(e.s) && (Unbinds(s, binds, e.s) || Adds(s, e.s)))
    && (!s.requestOutstanding ==> e.s.requestOutstanding == writes)
    && (!s.requestOutstanding && e.s.requestOutstanding ==> e.s.watchdog || e.s.dead)
    && (s.watchdog ==> e.s.watchdog || e.s.dead)
    && (s.dead ==> e.s.dead)
    && (B.Undelivered(e.s) ==> B.Undelivered(s) || Adds(s, e.s))
  }

  lemma {:induction false} OneWake(s: B.Session, msgs: seq<Msg>, budget: nat)
    ensures |B.Transmit(s, msgs, budget).wakes| <= 1
    decreases |msgs|
  {
    if msgs != [] && B.Takes(s, msgs[0], budget) { OneWake(s, msgs[1..], budget - 1); }
  }

  lemma TransmitPolicy(s: B.Session, msgs: seq<Msg>, budget: nat)
    ensures var e := B.Transmit(s, msgs, budget);
            && (e.wakes != [] <==> s.tconn.Some? && e.s.tconn.None? && Pending(s))
            && e.s == s.(tconn := e.s.tconn) && (e.s.tconn == s.tconn || e.s.tconn == None)
            && |e.wakes| <= 1
  {
    B.TransmitFacts(s, msgs, budget);
    OneWake(s, msgs, budget);
  }

  lemma AttachPolicy(s: B.Session, tc: nat, delivered: nat, budget: nat)
    ensures Policy(s, true, false, B.OnAttach(s, tc, delivered, budget))
  {
    hide B.Transmit, B.AttachReply;
    TransmitPolicy(B.Bind(s, tc), B.AttachReply(s, delivered), budget);
  }

  lemma ClosePolicy(s: B.Session, budget: nat)
    ensures Policy(s, false, false, B.CloseUpstream(s, budget))
  {
    hide B.Transmit;
    TransmitPolicy(s.(downClosed := true), [CloseDown], budget);
  }

  lemma DialPolicy(s: B.Session, flushOk: bool, budget: nat)
    ensures Policy(s, false, WritesUp(s, Dialled(flushOk, budget)), B.DialDone(s, flushOk, budget))
  {
    hide B.Transmit, B.CloseUpstream;
    var s1 := s.(connected := true, preConn := [], watchdog := true);
    ClosePolicy(s1, budget);
    var written := s.upstreamWritten + |s.preConn|;
    TransmitPolicy(s1.(reading := true, upstreamWritten := written, requestOutstanding := true), [Ack(written)],
                   budget);
  }

  lemma DataPolicy(s: B.Session, offset: nat, p: Bytes, upstreamOk: bool, budget: nat)
    ensures Policy(s, false, WritesUp(s, Received(offset, p, upstreamOk, budget)),
                   B.OnData(s, offset, p, upstreamOk, budget))
  {
    hide B.Transmit, B.CloseUpstream;
    ClosePolicy(s, budget);
    if Accepts(s.upstreamWritten, offset, p) {
      var written := s.upstreamWritten + |Fresh(s.upstreamWritten, offset, p)|;
      TransmitPolicy(s.(upstreamWritten := written, requestOutstanding := true, watchdog := true), [Ack(written)],
                     budget);
    }
  }

  lemma EofPolicy(s: B.Session, budget: nat)
    ensures Policy(s, false, false, B.UpstreamEof(s, budget))
  {
    hide B.CloseUpstream;
    ClosePolicy(s.(reading := false), budget);
  }

  lemma DialFailsPolicy(s: B.Session, budget: nat)
    ensures Policy(s, false, false, B.DialFailed(s, budget))
  {
    hide B.Transmit;
    TransmitPolicy(s, [CloseDown], budget);
  }

  lemma DropPolicy(s: B.Session, tc: nat)
    ensures Policy(s, false, false, B.Detach(s, tc))
  {
  }

  lemma ProducePolicy(s: B.Session, chunk: Bytes, writeOk: bool)
    requires chunk != []
    ensures Policy(s, false, false, B.Produce(s, chunk, writeOk))
  {
  }

  lemma AckPolicy(s: B.Session, offset: nat)
    ensures Policy(s, false, false, B.Quiet(B.OnAck(s, offset)))
  {
  }

  lemma SidecarClosePolicy(s: B.Session)
    ensures Policy(s, false, false, B.Quiet(B.OnSidecarClose(s)))
  {
  }

  /** A step issues a wake if and only if it leaves a detached session with a request outstanding and
      something undelivered that is news: the binding was just lost, or a byte or the close has just
      come in; or if the watchdog fires on a live detached session with a request outstanding. */
  lemma WakeIff(s: B.Session, ev: Event)
    requires Possible(ev)
    ensures !ev.Fires? ==> Policy(s, ev.Attached?, WritesUp(s, ev), Do(s, ev))
    ensures ev.Fires? ==> (Do(s, ev).wakes != [] <==> !s.dead && s.requestOutstanding && s.tconn.None?)
  {
    hide Policy, B.OnAttach, B.DialDone, B.DialFailed, B.OnData, B.UpstreamEof, B.Produce, B.Detach, B.OnAck;
    hide B.OnSidecarClose;
    match ev
    case Attached(tc, delivered, budget) => AttachPolicy(s, tc, delivered, budget);
    case Dialled(flushOk, budget) => DialPolicy(s, flushOk, budget);
    case DialFails(budget) => DialFailsPolicy(s, budget);
    case Received(offset, p, upstreamOk, budget) => DataPolicy(s, offset, p, upstreamOk, budget);
    case Eof(budget) => EofPolicy(s, budget);
    case Drop(tc) => DropPolicy(s, tc);
    case Produce(chunk, writeOk) => ProducePolicy(s, chunk, writeOk);
    case Acked(offset) => AckPolicy(s, offset);
    case SidecarClose => SidecarClosePolicy(s);
    case Fires =>
  }

  // ---------------------------------------------------------------- no wake is lost

  /** A session with its wakes so far; `woken` says that one was issued since it was last bound. */
  datatype Watched = Watched(s: B.Session, woken: bool, wakes: seq<B.WakeReason>)

  function Next(w: Watched, ev: Event): Watched {
    var e := Do(w.s, ev);
    Watched(e.s, e.s.tconn.None? && (e.wakes != [] || (w.woken && !Unbinds(w.s, ev.Attached?, e.s))), w.wakes + e.wakes)
  }

  function Run(w: Watched, run: seq<Event>): Watched
    decreases |run|
  {
    if run == [] then w else Run(Next(w, run[0]), run[1..])
  }

  lemma {:induction false} RunThen(w: Watched, run: seq<Event>, more: seq<Event>)
    ensures Run(w, run + more) == Run(Run(w, run), more)
    decreases |run|
  {
    hide Next;
    if run == [] {
      assert run + more == more;
    } else {
      assert (run + more)[0] == run[0] && (run + more)[1..] == run[1..] + more;
      RunThen(Next(w, run[0]), run[1..], more);
    }
  }

  ghost predicate AllPossible(run: seq<Event>) { forall ev :: ev in run ==> Possible(ev) }

  function Created(max: nat): Watched { Watched(B.New(max), false, []) }

  /** A live detached session that owes its sidecar something for an outstanding request. */
  predicate Owes(s: B.Session) { !s.dead && s.tconn.None? && Pending(s) }

  predicate Covered(w: Watched) { Owes(w.s) ==> w.woken || w.s.watchdog }

  lemma NextCovered(w: Watched, ev: Event)
    requires Possible(ev) && Covered(w)
    ensures Covered(Next(w, ev))
  {
    WakeIff(w.s, ev);
  }

  lemma {:induction false} RunCovered(w: Watched, run: seq<Event>)
    requires Covered(w) && AllPossible(run)
    ensures Covered(Run(w, run))
    decreases |run|
  {
    if run != [] {
      NextCovered(w, run[0]);
      RunCovered(Next(w, run[0]), run[1..]);
    }
  }

  /** In every reachable state in which a live session is detached, has a request outstanding and has
      bytes or a close that its sidecar has not seen, either a wake was issued since it was last bound
      or the watchdog is armed. */
  lemma NoLostWake(max: nat, run: seq<Event>)
    requires AllPossible(run)
    ensures var w := Run(Created(max), run); Owes(w.s) ==> w.woken || w.s.watchdog
  {
    RunCovered(Created(max), run);
  }

  // ---------------------------------------------------------------- no wake is spurious

  /** Every wake is issued for a session that is then detached with a request outstanding. */
  lemma WakeIsForPending(s: B.Session, ev: Event)
    requires Possible(ev) && Do(s, ev).wakes != []
    ensures Do(s, ev).s.tconn.None? && Do(s, ev).s.requestOutstanding
  {
    WakeIff(s, ev);
  }

  ghost predicate NeverWrites(s: B.Session, run: seq<Event>)
    decreases |run|
  {
    run == [] || (!WritesUp(s, run[0]) && NeverWrites(Do(s, run[0]).s, run[1..]))
  }

  lemma FiringChanges(s: B.Session)
    ensures Do(s, Fires).s == s.(watchdog := false)
  {
  }

  lemma {:induction false} QuietWithoutRequest(w: Watched, run: seq<Event>)
    requires !w.s.requestOutstanding && AllPossible(run) && NeverWrites(w.s, run)
    ensures Run(w, run).wakes == w.wakes && !Run(w, run).s.requestOutstanding
    decreases |run|
  {
    hide Do, WritesUp;
    if run != [] {
      WakeIff(w.s, run[0]);
      FiringChanges(w.s);
      assert w.wakes + [] == w.wakes;
      QuietWithoutRequest(Next(w, run[0]), run[1..]);
    }
  }

  /** From the acknowledgement that drains the buffer until the next write to upstream, no sequence of
      upstream data, closes, attaches, detaches and watchdog firings wakes the actor. */
  lemma NoSpuriousWake(w: Watched, offset: nat, run: seq<Event>)
    requires w.s.downBuf.TrimTo(offset).bytes == []
    requires AllPossible(run) && NeverWrites(Do(w.s, Acked(offset)).s, run)
    ensures Run(Next(w, Acked(offset)), run).wakes == w.wakes
  {
    QuietWithoutRequest(Next(w, Acked(offset)), run);
  }

  // ---------------------------------------------------------------- when a session ends

  predicate Finished(s: B.Session) { s.upClosed && s.downClosed && s.downBuf.bytes == [] }

  lemma CloseEndsIff(s: B.Session, budget: nat)
    requires !s.dead
    ensures var s' := B.CloseUpstream(s, budget).s; s'.downClosed && (s'.dead <==> !s.downClosed && Finished(s'))
  {
    hide B.Transmit;
    TransmitPolicy(s.(downClosed := true), [CloseDown], budget);
  }

  lemma SendKeepsAlive(s: B.Session, msgs: seq<Msg>, budget: nat)
    ensures var s' := B.Transmit(s, msgs, budget).s; s'.dead == s.dead && s'.downClosed == s.downClosed
  {
    TransmitPolicy(s, msgs, budget);
  }

  lemma DialEndsIff(s: B.Session, flushOk: bool, budget: nat)
    requires !s.dead
    ensures var s' := B.DialDone(s, flushOk, budget).s; s'.dead <==> !s.downClosed && s'.downClosed && Finished(s')
  {
    hide B.Transmit, B.CloseUpstream;
    var s1 := s.(connected := true, preConn := [], watchdog := true);
    CloseEndsIff(s1, budget);
    var written := s.upstreamWritten + |s.preConn|;
    SendKeepsAlive(s1.(reading := true, upstreamWritten := written, requestOutstanding := true), [Ack(written)],
                   budget);
  }

  lemma DataEndsIff(s: B.Session, offset: nat, p: Bytes, upstreamOk: bool, budget: nat)
    requires !s.dead
    ensures var s' := B.OnData(s, offset, p, upstreamOk, budget).s;
            s'.dead <==> !s.downClosed && s'.downClosed && Finished(s')
  {
    hide B.Transmit, B.CloseUpstream;
    CloseEndsIff(s, budget);
    if Accepts(s.upstreamWritten, offset, p) {
      var written := s.upstreamWritten + |Fresh(s.upstreamWritten, offset, p)|;
      SendKeepsAlive(s.(upstreamWritten := written, requestOutstanding := true, watchdog := true), [Ack(written)],
                     budget);
    }
  }

  /** A live session ends in a step if and only if its dial fails, or one of its halves is closed in that
      step and then both are and the buffer is drained. In particular no acknowledgement ends it. */
  lemma EndsIff(s: B.Session, ev: Event)
    requires !s.dead
    ensures var s' := Do(s, ev).s;
            s'.dead <==> ev.DialFails? || ((ev.SidecarClose? || (!s.downClosed && s'.downClosed)) && Finished(s'))
  {
    hide B.Transmit, B.CloseUpstream, B.DialDone, B.OnData, B.AttachReply;
    match ev
    case Attached(tc, delivered, budget) => SendKeepsAlive(B.Bind(s, tc), B.AttachReply(s, delivered), budget);
    case Dialled(flushOk, budget) => DialEndsIff(s, flushOk, budget);
    case Received(offset, p, upstreamOk, budget) => DataEndsIff(s, offset, p, upstreamOk, budget);
    case Eof(budget) => CloseEndsIff(s.(reading := false), budget);
    case _ =>
  }

  // ---------------------------------------------------------------- a wake for a dead session

  /** A dialled session bound to tunnel 0 after one request byte. */
  function Asked(max: nat): B.Session {
    B.New(max).(tconn := Some(0), connected := true, reading := true, upstreamWritten := 1, requestOutstanding := true,
                watchdog := true)
  }

  lemma Asking(max: nat)
    ensures Next(Next(Next(Created(max), Attached(0, 0, 9)), Dialled(true, 9)), Received(0, [1], true, 9)) ==
            Watched(Asked(max), false, [])
  {
    var s1 := B.Bind(B.New(max), 0);
    assert B.AttachReply(B.New(max), 0) == [AttachOk(0)];
    B.TransmitFacts(s1, [AttachOk(0)], 9);
    assert Do(s1, Dialled(true, 9)) == B.Quiet(s1.(connected := true, reading := true, watchdog := true));
    B.TransmitFacts(Asked(max), [Ack(1)], 9);
  }

  lemma Dying(max: nat)
    ensures var w := Next(Next(Next(Watched(Asked(max), false, []), SidecarClose), Eof(9)), Drop(0));
            w.s.dead && w.wakes == [B.UndeliveredOnDetach]
  {
    var s1 := Asked(max).(upClosed := true);
    assert Do(Asked(max), SidecarClose) == B.Quiet(s1);
    assert Do(s1, Eof(9)).s == s1.(reading := false, downClosed := true, dead := true, watchdog := false);
  }

  /** The rule does not ask whether the session is still alive: one that was destroyed while its
      request was outstanding still wakes the actor when its tunnel drops. */
  lemma DeadSessionWakes(max: nat)
    ensures var w := Run(Created(max), [Attached(0, 0, 9), Dialled(true, 9), Received(0, [1], true, 9), SidecarClose,
                                        Eof(9), Drop(0)]);
            w.s.dead && w.wakes == [B.UndeliveredOnDetach]
  {
    hide Do, Next;
    Asking(max);
    Dying(max);
    var run := [Attached(0, 0, 9), Dialled(true, 9), Received(0, [1], true, 9), SidecarClose, Eof(9), Drop(0)];
    assert run[1..] == [Dialled(true, 9), Received(0, [1], true, 9), SidecarClose, Eof(9), Drop(0)];
    assert run[1..][1..] == [Received(0, [1], true, 9), SidecarClose, Eof(9), Drop(0)];
    assert run[1..][1..][1..] == [SidecarClose, Eof(9), Drop(0)];
    assert run[1..][1..][1..][1..] == [Eof(9), Drop(0)];
    assert run[1..][1..][1..][1..][1..] == [Drop(0)];
    assert run[1..][1..][1..][1..][1..][1..] == [];
  }
}
