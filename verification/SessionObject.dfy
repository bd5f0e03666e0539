/** The broker's session as the object that the handlers update in place (internal/broker/session.go).
    Each method is proved to do what BrokerSessions says; the producer loop is proved to append all of
    its input in order whatever the other goroutines do while it waits for space. */
module SessionObjects {
  import opened Streams
  import opened ReplayBuffers
  import opened Messages
  import B = BrokerSessions
  import W = WakePolicy

  datatype Produced = Done | Dead | Waiting

  const DIR_UP := 1

  /** The bytes that the producer's own steps of a run append. */
  function Chunks(run: seq<W.Event>): Bytes
    decreases |run|
  {
    if run == [] then [] else (if run[0].Produce? then run[0].chunk else []) + Chunks(run[1..])
  }

  lemma {:induction false} ChunksThen(run: seq<W.Event>, more: seq<W.Event>)
    ensures Chunks(run + more) == Chunks(run) + Chunks(more)
    decreases |run|
  {
    if run == [] {
      assert run + more == more;
    } else {
      assert (run + more)[0] == run[0] && (run + more)[1..] == run[1..] + more;
      ChunksThen(run[1..], more);
    }
  }

  lemma ChunkNext(run: seq<W.Event>, chunk: Bytes, writeOk: bool)
    ensures Chunks(run + [W.Produce(chunk, writeOk)]) == Chunks(run) + chunk
  {
    ChunksThen(run, [W.Produce(chunk, writeOk)]);
  }

  /** Steps of the other goroutines: those that serve frames, dials and timers. */
  ghost predicate Others(run: seq<W.Event>) { forall ev :: ev in run ==> !ev.Produce? }

  lemma {:induction false} OthersAppendNothing(run: seq<W.Event>)
    requires Others(run)
    ensures Chunks(run) == []
    decreases |run|
  {
    if run != [] {
      assert run[0] in run;
      OthersAppendNothing(run[1..]);
    }
  }

  class Session {
    var tconn: Option<nat>
    var connected: bool
    var reading: bool
    var preConn: Bytes
    const downBuf: ReplayBuffer
    var upstreamWritten: nat
    var requestOutstanding: bool
    var upClosed: bool
    var downClosed: bool
    var dead: bool
    var watchdog: bool

    /** What the session has done to the world: frames the tunnel took, wakes, bytes given to upstream. */
    ghost var sent: seq<Msg>
    ghost var wakes: seq<B.WakeReason>
    ghost var upstream: Bytes

    ghost predicate Valid()
      reads this`dead, this`watchdog, this`connected, this`preConn, this`upstreamWritten, this`upstream, downBuf
    {
      && downBuf.Valid() && (dead ==> !watchdog)
      && upstreamWritten == |upstream| && (connected ==> preConn == [])
    }

    /** A request is outstanding and something has not been acknowledged. */
    predicate Owing()
      reads this`requestOutstanding, this`downClosed, downBuf
    {
      requestOutstanding && (|downBuf.buf| > 0 || downClosed)
    }

    function View(): B.Session
      reads this, downBuf
    {
      B.Session(tconn, connected, reading, preConn, downBuf.Value(), upstreamWritten, requestOutstanding,
                upClosed, downClosed, dead, watchdog)
    }

    /** What was done since the old state is the step `e`. */
    twostate predicate Took(e: B.Effect)
      reads this, downBuf
    {
      View() == e.s && sent == old(sent) + e.sent && wakes == old(wakes) + e.wakes
          && upstream == old(upstream) + e.upstream
    }

    /** The session is no longer bound to `tc`; if it was, it has woken its actor if it owes it something. */
    twostate predicate Left(tc: nat)
      reads this`tconn, this`wakes, this`requestOutstanding, this`downClosed, downBuf
    {
      if old(tconn) == Some(tc)
      then tconn == None && wakes == old(wakes) + (if Owing() then [B.UndeliveredOnDetach] else [])
      else tconn == old(tconn) && wakes == old(wakes)
    }

    /** The frames that answer an ATTACH at `d`: how much upstream was given, what was read from it from `d` on,
        and its end; the last two if the buffer still holds everything from there. */
    ghost function Answer(d: nat): seq<Msg>
      requires Valid()
      reads this, downBuf
    {
      var held := downBuf.base <= d <= |downBuf.stream|;
      [AttachOk(|upstream|)]
      + (if held && d < |downBuf.stream| then [Data(d, downBuf.stream[d..])] else [])
      + (if held && downClosed then [CloseDown] else [])
    }

    /** The answer has gone to tunnel `tc`, as far as that has taken it; nothing else has happened. */
    twostate predicate Answered(tc: nat, d: nat, budget: nat)
      requires old(Valid())
      reads this, downBuf
    {
      var answer := old(Answer(d));
      && unchanged(downBuf) && View() == old(View()).(tconn := tconn) && upstream == old(upstream)
      && (if |answer| <= budget && (forall m :: m in answer ==> Encodable(m))
          then tconn == Some(tc) && sent == old(sent) + answer && wakes == old(wakes)
          else
            && tconn == None && (exists n :: 0 <= n < |answer| && sent == old(sent) + answer[..n])
            && wakes == old(wakes) + (if Owing() then [B.UndeliveredOnDetach] else []))
    }

    /** The bytes of a DATA frame that the session has not taken yet were queued before the dial, and after it
        given to upstream and acknowledged, or the close was recorded and sent; a dead session, a duplicate
        and a frame that leaves a gap change nothing. */
    twostate predicate TookData(offset: nat, p: Bytes, upstreamOk: bool, budget: nat)
      reads this, downBuf
    {
      var mark := old(|upstream| + |preConn|);
      var takes := budget > 0 && old(tconn).Some?;
      && unchanged(downBuf) && upClosed == old(upClosed) && reading == old(reading) && connected == old(connected)
      && (if old(dead) || !Accepts(mark, offset, p) then
            View() == old(View()) && sent == old(sent) && upstream == old(upstream)
          else if !old(connected) then
            && View() == old(View()).(preConn := old(preConn) + p[mark - offset..])
            && sent == old(sent) && upstream == old(upstream)
          else if upstreamOk then
            && upstream == old(upstream) + p[mark - offset..] && upstreamWritten == |upstream|
            && requestOutstanding && watchdog && !dead && downClosed == old(downClosed)
            && tconn == (if takes then old(tconn) else None)
            && sent == old(sent) + (if takes then [Ack(|upstream|)] else [])
          else
            && upstream == old(upstream) && downClosed && requestOutstanding == old(requestOutstanding)
            && tconn == (if takes || old(downClosed) then old(tconn) else None)
            && sent == old(sent) + (if takes && !old(downClosed) then [CloseDown] else []))
    }

    /** One frame has gone to the tunnel that was bound, if that took it; otherwise none is bound. */
    twostate predicate Reported(m: Msg, budget: nat)
      reads this`tconn, this`sent
    {
      var takes := budget > 0 && old(tconn).Some?;
      tconn == (if takes then old(tconn) else None) && sent == old(sent) + (if takes then [m] else [])
    }

    /** Everything up to `offset` was dropped from the buffer; a request is over when nothing is left. */
    twostate predicate Trimmed(offset: nat)
      reads this, downBuf
    {
      && downBuf.stream == old(downBuf.stream)
      && downBuf.base == (if offset <= old(downBuf.base) then old(downBuf.base)
                          else if offset < |downBuf.stream| then offset else |downBuf.stream|)
      && View() == old(View()).(downBuf := downBuf.Value(),
                                requestOutstanding := old(requestOutstanding) && downBuf.base < |downBuf.stream|)
      && sent == old(sent) && upstream == old(upstream)
    }

    /** What a frame of tunnel `tc` has done, in terms of the session's own history. */
    twostate predicate Served(tc: nat, m: Msg, upstreamOk: bool, budget: nat)
      requires old(Valid())
      reads this, downBuf
    {
      match m
      case Open => Answered(tc, 0, budget)
      case Attach(d) => Answered(tc, d, budget)
      case Data(offset, p) => TookData(offset, p, upstreamOk, budget)
      case Ack(offset) => Trimmed(offset)
      case CloseUp =>
        && unchanged(downBuf) && sent == old(sent) && upstream == old(upstream)
        && View() == old(View()).(upClosed := true, dead := dead, watchdog := watchdog)
        && dead == (old(dead) || (downClosed && downBuf.base == |downBuf.stream|))
      case _ => unchanged(this, downBuf)
    }

    constructor (max: nat)
      ensures Valid() && View() == B.New(max) && downBuf.stream == [] && fresh(downBuf)
      ensures sent == [] && wakes == [] && upstream == []
    {
      tconn, connected, reading, preConn := None, false, false, [];
      downBuf := new ReplayBuffer(max);
      upstreamWritten, requestOutstanding, upClosed, downClosed, dead, watchdog := 0, false, false, false, false, false;
      sent, wakes, upstream := [], [], [];
    }

    method Bind(tc: nat)
      requires Valid()
      modifies this`tconn
      ensures Valid() && View() == B.Bind(old(View()), tc)
    {
      tconn := Some(tc);
    }

    method Detach(tc: nat)
      requires Valid()
      modifies this`tconn, this`wakes
      ensures Valid() && Took(B.Detach(old(View()), tc))
      ensures Left(tc)
    {
      if tconn != Some(tc) {
        return;
      }
      tconn := None;
      var wake := Owing();
      if wake {
        wakes := wakes + [B.UndeliveredOnDetach];
      }
    }

    /** `budget` is how many more frames the tunnel takes before a write fails. */
    method SendToSidecar(f: Msg, budget: nat) returns (left: nat)
      requires Valid()
      modifies this`tconn, this`wakes, this`sent
      ensures Valid() && Took(B.Transmit(old(View()), [f], budget))
      ensures left == if budget == 0 then 0 else budget - 1
    {
      left := if budget == 0 then 0 else budget - 1;
      if tconn.None? {
        return;
      }
      if budget > 0 && Encodable(f) {
        sent := sent + [f];
        assert [f][1..] == [];
      } else {
        Detach(tconn.value);
      }
    }

    method SendIf(condition: bool, f: Msg, budget: nat) returns (left: nat)
      requires Valid()
      modifies this`tconn, this`wakes, this`sent
      ensures Valid() && Took(B.Transmit(old(View()), if condition then [f] else [], budget))
      ensures left == if condition && budget > 0 then budget - 1 else budget
    {
      left := budget;
      if condition {
        left := SendToSidecar(f, budget);
      }
    }

    method Destroy()
      requires Valid()
      modifies this`dead, this`watchdog
      ensures Valid() && View() == old(View()).(dead := true, watchdog := false)
    {
      if dead {
        return;
      }
      dead := true;
      watchdog := false;
    }

    method MaybeDestroy()
      requires Valid()
      modifies this`dead, this`watchdog
      ensures Valid() && View() == B.MaybeDestroy(old(View()))
    {
      var done := upClosed && downClosed && |downBuf.buf| == 0;
      if done {
        Destroy();
      }
    }

    method RecordClose(budget: nat)
      requires Valid()
      modifies this`tconn, this`wakes, this`sent, this`downClosed, this`dead, this`watchdog
      ensures Valid() && Took(B.CloseUpstream(old(View()), budget))
    {
      if downClosed {
        return;
      }
      downClosed := true;
      var pending, bound := requestOutstanding, tconn.Some?;
      if bound {
        var _ := SendToSidecar(CloseDown, budget);
      } else if pending {
        wakes := wakes + [B.CloseOnPending];
      }
      MaybeDestroy();
    }

    method CloseUpstream(budget: nat)
      requires Valid()
      modifies this`tconn, this`wakes, this`sent, this`downClosed, this`dead, this`watchdog
      ensures Valid() && Took(B.CloseUpstream(old(View()), budget))
      ensures downClosed
      ensures if old(downClosed) then tconn == old(tconn) && sent == old(sent) else Reported(CloseDown, budget)
    {
      hide B.CloseUpstream;
      CloseMeans(View(), budget);
      RecordClose(budget);
    }

    /** The read loop meets the end of the stream or an error. */
    method UpstreamEnds(budget: nat)
      requires Valid()
      modifies this`tconn, this`wakes, this`sent, this`reading, this`downClosed, this`dead, this`watchdog
      ensures Valid() && Took(B.UpstreamEof(old(View()), budget))
      ensures downClosed && !reading
      ensures if old(downClosed) then tconn == old(tconn) && sent == old(sent) else Reported(CloseDown, budget)
    {
      reading := false;
      CloseUpstream(budget);
    }

    /** Bytes that upstream took are counted and acknowledged. */
    method Commit(payload: Bytes, budget: nat)
      requires Valid()
      modifies this`tconn, this`wakes, this`sent, this`upstream, this`upstreamWritten, this`requestOutstanding
      ensures Valid()
      ensures var s := old(View()).(upstreamWritten := old(upstreamWritten) + |payload|, requestOutstanding := true);
              Took(B.Transmit(s, [Ack(s.upstreamWritten)], budget).(upstream := payload))
      ensures upstream == old(upstream) + payload && Reported(Ack(|upstream|), budget)
    {
      hide B.Transmit;
      OneFrameIs(View().(upstreamWritten := upstreamWritten + |payload|, requestOutstanding := true),
                 Ack(upstreamWritten + |payload|), budget);
      upstream := upstream + payload;
      upstreamWritten := upstreamWritten + |payload|;
      requestOutstanding := true;
      var _ := SendToSidecar(Ack(upstreamWritten), budget);
    }

    /** The dial has completed: the queued bytes were given to upstream and acknowledged, and the read loop runs;
        or they could not be written, and the close is recorded. */
    twostate predicate Connects(flushOk: bool, budget: nat)
      reads this
    {
      && connected && upstream == old(upstream) + (if flushOk then old(preConn) else [])
      && (if old(preConn) == [] then reading && tconn == old(tconn) && sent == old(sent)
          else if flushOk then reading && Reported(Ack(|upstream|), budget)
          else reading == old(reading) && downClosed && (!old(downClosed) ==> Reported(CloseDown, budget)))
    }

    method Flush(pre: Bytes, flushOk: bool, budget: nat)
      requires Valid() && connected && preConn == [] && pre != []
      modifies this
      ensures Valid() && connected && preConn == []
      ensures upstream == old(upstream) + (if flushOk then pre else [])
      ensures flushOk ==> reading && Reported(Ack(|upstream|), budget)
      ensures !flushOk ==> reading == old(reading) && downClosed && (!old(downClosed) ==> Reported(CloseDown, budget))
      ensures var b := old(View());
              var written := b.upstreamWritten + |pre|;
              var s := b.(reading := true, upstreamWritten := written, requestOutstanding := true);
              Took(if flushOk then B.Transmit(s, [Ack(written)], budget).(upstream := pre)
                   else B.CloseUpstream(b, budget))
    {
      hide B.Transmit, B.CloseUpstream;
      if !flushOk {
        CloseMeans(View(), budget);
        CloseUpstream(budget);
        return;
      }
      // The read loop starts after the ACK, which does not depend on it.
      reading := true;
      Commit(pre, budget);
    }

    method DialUpstream(dialOk: bool, flushOk: bool, budget: nat)
      requires Valid()
      modifies this
      ensures Valid()
      ensures Took(if dialOk then B.DialDone(old(View()), flushOk, budget) else B.DialFailed(old(View()), budget))
      ensures !dialOk ==> dead && upstream == old(upstream) && Reported(CloseDown, budget)
      ensures dialOk && old(dead) ==> unchanged(this)
      ensures dialOk && !old(dead) ==> Connects(flushOk, budget)
    {
      hide B.Transmit, B.CloseUpstream;
      if !dialOk {
        OneFrameIs(View(), CloseDown, budget);
        B.TransmitFacts(View(), [CloseDown], budget);
        var _ := SendToSidecar(CloseDown, budget);
        Destroy();
        return;
      }
      if dead {
        return;
      }
      connected := true;
      var pre := preConn;
      preConn := [];
      watchdog := true;
      if |pre| > 0 {
        Flush(pre, flushOk, budget);
        return;
      }
      reading := true;
    }

    method Queue(start: nat, data: Bytes)
      requires Valid() && !connected
      modifies this`preConn
      ensures Valid()
      ensures var m := B.Mark(old(View()));
              View() == if Accepts(m, start, data)
                        then old(View()).(preConn := old(preConn) + Fresh(m, start, data))
                        else old(View())
    {
      var payload := data;
      var accepted := upstreamWritten + |preConn|;
      if start < accepted {
        var skip := accepted - start;
        if skip >= |payload| {
          return;
        }
        payload := payload[skip..];
      } else if start > accepted {
        return;
      }
      preConn := preConn + payload;
    }

    method OnData(start: nat, data: Bytes, upstreamOk: bool, budget: nat)
      requires Valid()
      modifies this
      ensures Valid() && Took(B.OnData(old(View()), start, data, upstreamOk, budget))
    {
      hide B.Transmit, B.CloseUpstream;
      if dead {
        return;
      }
      if !connected {
        Queue(start, data);
        return;
      }
      var offset, payload := start, data;
      if offset < upstreamWritten {
        var skip := upstreamWritten - offset;
        if skip >= |payload| {
          return;
        }
        payload := payload[skip..];
        offset := upstreamWritten;
      }
      if offset > upstreamWritten {
        return;
      }
      if !upstreamOk {
        CloseUpstream(budget);
        return;
      }
      watchdog := true;
      Commit(payload, budget);
    }

    method OnDownstreamAck(offset: nat)
      requires Valid()
      modifies this`requestOutstanding, downBuf`base, downBuf`buf
      ensures Valid() && View() == B.OnAck(old(View()), offset) && Trimmed(offset)
    {
      downBuf.TrimTo(offset);
      if |downBuf.buf| == 0 {
        requestOutstanding := false;
      }
    }

    method Attach(tc: nat, delivered: nat, budget: nat)
      requires Valid()
      modifies this`tconn, this`wakes, this`sent
      ensures Valid() && Took(B.OnAttach(old(View()), tc, delivered, budget)) && Answered(tc, delivered, budget)
    {
      hide B.Transmit;
      ghost var b, answer := View(), Answer(delivered);
      AnswerIs(delivered);
      B.TransmitFacts(B.Bind(b, tc), answer, budget);
      Bind(tc);
      OnSidecarAttach(delivered, budget);
      ghost var e := B.OnAttach(b, tc, delivered, budget);
      assert e.sent == answer[..|e.sent|];
    }

    lemma AnswerIs(d: nat)
      requires Valid()
      ensures B.AttachReply(View(), d) == Answer(d)
    {
      if downBuf.Value().Has(d) { FromIsTail(downBuf.Value(), downBuf.stream, d); }
    }

    /** What becomes of the frames that a DATA frame leads to. */
    static lemma DataMeans(b: B.Session, offset: nat, p: Bytes, budget: nat)
      ensures Accepts(b.upstreamWritten, offset, p) ==>
                var written := b.upstreamWritten + |Fresh(b.upstreamWritten, offset, p)|;
                var s := b.(upstreamWritten := written, requestOutstanding := true, watchdog := true);
                OneFrame(s, B.Transmit(s, [Ack(written)], budget), Ack(written), budget)
    {
      if Accepts(b.upstreamWritten, offset, p) {
        var written := b.upstreamWritten + |Fresh(b.upstreamWritten, offset, p)|;
        OneFrameIs(b.(upstreamWritten := written, requestOutstanding := true, watchdog := true), Ack(written), budget);
      }
    }

    static lemma CloseMeans(b: B.Session, budget: nat)
      ensures var e, takes := B.CloseUpstream(b, budget), budget > 0 && b.tconn.Some?;
              && e.s == b.(downClosed := true, dead := e.s.dead, watchdog := e.s.watchdog,
                           tconn := if takes || b.downClosed then b.tconn else None)
              && e.sent == (if takes && !b.downClosed then [CloseDown] else [])
              && e.upstream == []
    {
      hide B.Transmit;
      OneFrameIs(b.(downClosed := true), CloseDown, budget);
      B.TransmitFacts(b.(downClosed := true), [CloseDown], budget);
    }

    static predicate OneFrame(s: B.Session, e: B.Effect, m: Msg, budget: nat) {
      var takes := budget > 0 && s.tconn.Some?;
      e.s == s.(tconn := if takes then s.tconn else None) && e.sent == if takes then [m] else []
    }

    static lemma OneFrameIs(s: B.Session, m: Msg, budget: nat)
      requires !m.Data?
      ensures OneFrame(s, B.Transmit(s, [m], budget), m, budget)
    {
      B.TransmitFacts(s, [m], budget);
    }

    /** OnData in terms of the session's own history. */
    method TakeData(offset: nat, p: Bytes, upstreamOk: bool, budget: nat)
      requires Valid()
      modifies this
      ensures Valid() && Took(B.OnData(old(View()), offset, p, upstreamOk, budget))
      ensures TookData(offset, p, upstreamOk, budget)
    {
      hide B.Transmit, B.CloseUpstream;
      DataMeans(View(), offset, p, budget);
      CloseMeans(View(), budget);
      OnData(offset, p, upstreamOk, budget);
    }

    method OnSidecarAttach(delivered: nat, budget: nat)
      requires Valid()
      modifies this`tconn, this`wakes, this`sent
      ensures Valid() && Took(B.Transmit(old(View()), B.AttachReply(old(View()), delivered), budget))
    {
      hide B.Transmit;
      var written := upstreamWritten;
      var replay := downBuf.From(delivered);
      var copy := if replay.Some? then replay.value else [];
      var closing := downClosed && downBuf.base + |downBuf.buf| == delivered + |copy|;
      assert B.AttachReply(View(), delivered) == Reply(written, delivered, copy, closing);
      SendReply(written, delivered, copy, closing, budget);
    }

    static function Reply(written: nat, delivered: nat, copy: Bytes, closing: bool): seq<Msg> {
      [AttachOk(written)] + (if |copy| > 0 then [Data(delivered, copy)] else []) + (if closing then [CloseDown] else [])
    }

    method SendReply(written: nat, delivered: nat, copy: Bytes, closing: bool, budget: nat)
      requires Valid()
      modifies this`tconn, this`wakes, this`sent
      ensures Valid() && Took(B.Transmit(old(View()), Reply(written, delivered, copy, closing), budget))
    {
      hide B.Transmit;
      ghost var s, ok := View(), [AttachOk(written)];
      ghost var data := if |copy| > 0 then [Data(delivered, copy)] else [];
      ghost var close := if closing then [CloseDown] else [];
      var left := SendToSidecar(AttachOk(written), budget);
      ghost var e1, left1 := B.Transmit(s, ok, budget), left;
      left := SendIf(|copy| > 0, Data(delivered, copy), left);
      ghost var e2, left2 := B.Transmit(e1.s, data, left1), left;
      left := SendIf(closing, CloseDown, left);
      ghost var e3 := B.Transmit(e2.s, close, left2);
      B.TransmitThen(s, ok, data, budget);
      B.TransmitThen(s, ok + data, close, budget);
      Regroup(old(sent), e1.sent, e2.sent, e3.sent);
      Regroup(old(wakes), e1.wakes, e2.wakes, e3.wakes);
    }

    static lemma Regroup<T>(a: seq<T>, b: seq<T>, c: seq<T>, d: seq<T>)
      ensures a + b + c + d == a + (b + c + d)
    {
    }

    method OnSidecarClose(dir: nat)
      requires Valid()
      modifies this`upClosed, this`dead, this`watchdog
      ensures Valid() && View() == if dir == DIR_UP then B.OnSidecarClose(old(View())) else old(View())
    {
      if dir != DIR_UP {
        return;
      }
      upClosed := true;
      MaybeDestroy();
    }

    method WatchdogExpires()
      requires Valid()
      modifies this`watchdog, this`wakes
      ensures Valid() && Took(B.WatchdogFires(old(View())))
    {
      watchdog := false;
      if !dead && requestOutstanding && tconn.None? {
        wakes := wakes + [B.MaxSuspend];
      }
    }

    method Perform(ev: W.Event)
      requires Valid() && !ev.Produce?
      modifies this, downBuf
      ensures Valid() && Took(W.Do(old(View()), ev)) && downBuf.stream == old(downBuf.stream)
    {
      hide B.OnAttach, B.Detach, B.DialDone, B.DialFailed, B.OnData, B.OnAck, B.OnSidecarClose, B.UpstreamEof;
      hide B.WatchdogFires;
      match ev
      case Attached(tc, delivered, budget) => Attach(tc, delivered, budget);
      case Drop(tc) => Detach(tc);
      case Dialled(flushOk, budget) => DialUpstream(true, flushOk, budget);
      case DialFails(budget) => DialUpstream(false, false, budget);
      case Received(offset, p, upstreamOk, budget) => OnData(offset, p, upstreamOk, budget);
      case Acked(offset) => OnDownstreamAck(offset);
      case SidecarClose => OnSidecarClose(DIR_UP);
      case Eof(budget) => UpstreamEnds(budget);
      case Fires => WatchdogExpires();
    }

    /** The state and the wakes are where `run` leads from `w`. */
    ghost predicate Follows(w: W.Watched, run: seq<W.Event>)
      reads this, downBuf
    {
      W.Run(w, run).s == View() && W.Run(w, run).wakes == wakes
    }

    /** While the producer waits for space, other goroutines take these steps. */
    method Wait(events: seq<W.Event>, ghost w: W.Watched, ghost before: seq<W.Event>)
      requires Valid() && Others(events) && Follows(w, before)
      modifies this, downBuf
      ensures Valid() && downBuf.stream == old(downBuf.stream) && Follows(w, before + events)
    {
      hide W.Do, W.Run;
      assert before + events[..0] == before;
      for k := 0 to |events|
        invariant Valid() && downBuf.stream == old(downBuf.stream) && Follows(w, before + events[..k])
      {
        assert events[k] in events;
        Perform(events[k]);
        Advance(w, before + events[..k], events[k]);
        assert before + events[..k] + [events[k]] == before + events[..k + 1];
      }
      assert before + events[..|events|] == before + events;
    }

    lemma Advance(w: W.Watched, run: seq<W.Event>, ev: W.Event)
      ensures W.Run(w, run + [ev]) == W.Next(W.Run(w, run), ev)
    {
      hide W.Next;
      W.RunThen(w, run, [ev]);
      assert [ev][1..] == [];
    }

    /** One chunk that fits is appended, and forwarded if a tunnel is bound. */
    method Forward(chunk: Bytes, writeOk: bool)
      requires Valid() && |chunk| <= downBuf.Value().Free()
      modifies this`tconn, this`sent, this`wakes, downBuf
      ensures Valid() && Took(B.Produce(old(View()), chunk, writeOk)) && downBuf.stream == old(downBuf.stream) + chunk
    {
      var startOffset := downBuf.base + |downBuf.buf|;
      var ok := downBuf.Append(chunk);
      assert ok;
      if tconn.Some? {
        var f := Data(startOffset, chunk);
        if writeOk && Encodable(f) {
          sent := sent + [f];
        } else {
          tconn := None;
        }
      }
      if tconn.None? && requestOutstanding {
        wakes := wakes + [B.DataOnPending];
      }
    }

    method ForwardNext(chunk: Bytes, writeOk: bool, ghost w: W.Watched, ghost before: seq<W.Event>)
      requires Valid() && |chunk| <= downBuf.Value().Free() && Follows(w, before)
      modifies this`tconn, this`sent, this`wakes, downBuf
      ensures Valid() && downBuf.stream == old(downBuf.stream) + chunk
              && Follows(w, before + [W.Produce(chunk, writeOk)])
    {
      hide B.Produce;
      Forward(chunk, writeOk);
      Advance(w, before, W.Produce(chunk, writeOk));
    }

    lemma Begin()
      ensures Follows(W.Watched(View(), false, wakes), []) && Chunks([]) == []
    {
    }

    /** produceDownstream: appends all of its input in order, in chunks that fit, waiting for space in
        between. Each wait takes one entry of `schedule`; with none left the producer is still waiting.
        Every chunk is within the space that is free, so Append is never refused. */
    method ProduceDownstream(data: Bytes, writeOk: nat -> bool, schedule: seq<seq<W.Event>>)
        returns (result: Produced, n: nat, ghost trace: seq<W.Event>)
      requires Valid() && (forall turn :: turn in schedule ==> Others(turn))
      modifies this, downBuf
      ensures Valid()
      ensures n <= |data| && downBuf.stream == old(downBuf.stream) + data[..n]
      ensures result.Done? <==> n == |data|
      ensures result.Dead? ==> dead
      ensures result.Waiting? ==> !dead && downBuf.Value().Free() == 0
      ensures Follows(W.Watched(old(View()), false, old(wakes)), trace) && Chunks(trace) == data[..n]
    {
      hide W.Run, W.Do, Follows, Chunks;
      n, trace := 0, [];
      var turns := 0;
      ghost var w := W.Watched(View(), false, wakes);
      Begin();
      while n < |data|
        invariant Valid() && n <= |data| && turns <= |schedule|
        invariant downBuf.stream == old(downBuf.stream) + data[..n]
        invariant Follows(w, trace) && Chunks(trace) == data[..n]
        decreases |schedule| - turns + |data| - n
      {
        if dead {
          return Dead, n, trace;
        }
        var free := downBuf.max - |downBuf.buf|;
        if free == 0 {
          if turns == |schedule| {
            return Waiting, n, trace;
          }
          var turn := schedule[turns];
          Wait(turn, w, trace);
          ChunksThen(trace, turn);
          OthersAppendNothing(turn);
          trace := trace + turn;
          turns := turns + 1;
        } else {
          var take := |data| - n;
          if take > free {
            take := free;
          }
          var chunk := data[n..n + take];
          ForwardNext(chunk, writeOk(n), w, trace);
          ChunkNext(trace, chunk, writeOk(n));
          trace := trace + [W.Produce(chunk, writeOk(n))];
          assert data[..n] + chunk == data[..n + take];
          n := n + take;
        }
      }
      result := Done;
    }
  }
}
