/** The sidecar's session as the object that its handlers update in place (internal/sidecar/session.go).
    Each method is proved to do what ClientSessions says; the writer loop is proved to retain and send
    all of the agent's bytes in order whatever arrives while it waits for space. */
module ClientObjects {
  import opened Streams
  import opened ReplayBuffers
  import opened Messages
  import C = ClientSessions

  datatype Writing = Done | Dead | Waiting

  const DIR_DOWN := 2

  datatype Event =
    | Writes(chunk: Bytes)
    | Acked(offset: nat)
    | Delivers(offset: nat, p: Bytes, agentOk: bool)
    | AttachedOk(offset: nat)
    | Closes(halfCloses: bool)
    | FinishesUp

  function Do(c: C.Client, ev: Event): C.Outcome {
    match ev
    case Writes(chunk) => C.WriteUp(c, chunk)
    case Acked(offset) => C.Quiet(C.OnUpstreamAck(c, offset))
    case Delivers(offset, p, agentOk) => C.DeliverDown(c, offset, p, agentOk)
    case AttachedOk(offset) => C.OnAttachOk(c, offset)
    case Closes(halfCloses) => C.Quiet(C.OnClose(c, halfCloses))
    case FinishesUp => C.CloseUp(c)
  }

  function Next(o: C.Outcome, ev: Event): C.Outcome {
    var d := Do(o.c, ev);
    C.Outcome(d.c, o.send + d.send, o.delivered + d.delivered)
  }

  /** A whole history, with everything sent and delivered along the way. */
  function Run(o: C.Outcome, run: seq<Event>): C.Outcome
    decreases |run|
  {
    if run == [] then o else Next(Run(o, run[..|run| - 1]), run[|run| - 1])
  }

  lemma DeliversNext(o: C.Outcome, offset: nat, p: Bytes, agentOk: bool)
    ensures Next(o, Delivers(offset, p, agentOk)) ==
            if o.c.dead || !Accepts(o.c.downDelivered, offset, p) then o
            else if !agentOk then o.(c := o.c.(dead := true))
            else
              var added := Fresh(o.c.downDelivered, offset, p);
              var mark := o.c.downDelivered + |added|;
              C.Outcome(o.c.(downDelivered := mark), o.send + [Ack(mark)], o.delivered + added)
  {
    assert o.send + [] == o.send && o.delivered + [] == o.delivered;
  }

  lemma FreshIs(mark: nat, offset: nat, p: Bytes)
    ensures offset == mark ==> Fresh(mark, offset, p) == p
    ensures offset < mark < offset + |p| ==> Fresh(mark, offset, p) == p[mark - offset..]
  {
  }

  lemma RunNext(o: C.Outcome, run: seq<Event>, ev: Event)
    ensures Run(o, run + [ev]) == Next(Run(o, run), ev)
  {
  }

  lemma RunNothing(o: C.Outcome)
    ensures Run(o, []) == o
  {
  }

  /** The bytes that the agent's own writes append in a history. */
  function Written(run: seq<Event>): Bytes
    decreases |run|
  {
    if run == [] then []
    else Written(run[..|run| - 1]) + (if run[|run| - 1].Writes? then run[|run| - 1].chunk else [])
  }

  lemma WrittenNothing()
    ensures Written([]) == []
  {
  }

  lemma WrittenNext(run: seq<Event>, ev: Event)
    ensures Written(run + [ev]) == Written(run) + if ev.Writes? then ev.chunk else []
  {
  }

  class ClientSession {
    const upBuf: ReplayBuffer
    var downDelivered: nat
    var upClosed: bool
    var downClosed: bool
    var dead: bool

    /** The frames handed to the tunnel client and the bytes written to the agent. */
    ghost var sends: seq<Msg>
    ghost var delivered: Bytes

    ghost predicate Valid()
      reads this, upBuf
    {
      upBuf.Valid()
    }

    function View(): C.Client
      reads this, upBuf
    {
      C.Client(upBuf.Value(), downDelivered, upClosed, downClosed, dead)
    }

    ghost function So(): C.Outcome
      reads this, upBuf
    {
      C.Outcome(View(), sends, delivered)
    }

    constructor (max: nat)
      ensures Valid() && fresh(upBuf) && upBuf.stream == [] && So() == C.Quiet(C.New(max))
    {
      upBuf := new ReplayBuffer(max);
      downDelivered, upClosed, downClosed, dead := 0, false, false, false;
      sends, delivered := [], [];
    }

    method OnUpstreamAck(offset: nat)
      requires Valid()
      modifies upBuf`base, upBuf`buf
      ensures Valid() && So() == Next(old(So()), Acked(offset))
    {
      upBuf.TrimTo(offset);
    }

    method CloseAll()
      modifies this`dead
      ensures dead
    {
      if dead {
        return;
      }
      dead := true;
    }

    method DeliverDown(start: nat, data: Bytes, agentOk: bool)
      requires Valid()
      modifies this
      ensures Valid() && So() == Next(old(So()), Delivers(start, data, agentOk))
    {
      hide Next, ReplayBuffer.Valid, ReplayBuffer.Value, Fresh;
      DeliversNext(So(), start, data, agentOk);
      FreshIs(downDelivered, start, data);
      var offset, payload := start, data;
      if dead {
        return;
      }
      if offset < downDelivered {
        var skip := downDelivered - offset;
        if skip >= |payload| {
          return;
        }
        payload := payload[skip..];
        offset := downDelivered;
      }
      if offset > downDelivered {
        return;
      }
      if !agentOk {
        CloseAll();
        return;
      }
      delivered := delivered + payload;
      downDelivered := downDelivered + |payload|;
      sends := sends + [Ack(downDelivered)];
    }

    method AttachFrame() returns (f: Msg)
      ensures f == C.AttachFrame(View())
    {
      f := Attach(downDelivered);
    }

    method OnAttachOk(offset: nat)
      requires Valid()
      modifies this`sends, upBuf`base, upBuf`buf
      ensures Valid() && So() == Next(old(So()), AttachedOk(offset))
    {
      upBuf.TrimTo(offset);
      var replay := upBuf.From(offset);
      if replay.None? {
        return;
      }
      if |replay.value| > 0 {
        sends := sends + [Data(offset, replay.value)];
      }
    }

    /** An agent connection that cannot be half-closed is closed altogether. */
    method OnClose(dir: nat, halfCloses: bool)
      requires Valid()
      modifies this`downClosed, this`dead
      ensures Valid() && So() == if dir == DIR_DOWN then Next(old(So()), Closes(halfCloses)) else old(So())
    {
      if dir == DIR_DOWN {
        downClosed := true;
        if !halfCloses {
          CloseAll();
        }
      }
    }

    method CloseUp()
      requires Valid()
      modifies this`upClosed, this`sends
      ensures Valid() && So() == Next(old(So()), FinishesUp)
    {
      if upClosed {
        return;
      }
      upClosed := true;
      sends := sends + [Messages.CloseUp];
    }

    method Perform(ev: Event)
      requires Valid() && !ev.Writes?
      modifies this, upBuf
      ensures Valid() && So() == Next(old(So()), ev) && upBuf.stream == old(upBuf.stream)
    {
      match ev
      case Acked(offset) => OnUpstreamAck(offset);
      case Delivers(offset, p, agentOk) => DeliverDown(offset, p, agentOk);
      case AttachedOk(offset) => OnAttachOk(offset);
      case Closes(halfCloses) => OnClose(DIR_DOWN, halfCloses);
      case FinishesUp => CloseUp();
    }

    /** One chunk that fits is retained, then sent. */
    method Send(chunk: Bytes)
      requires Valid() && |chunk| <= upBuf.Value().Free()
      modifies this`sends, upBuf
      ensures Valid() && So() == Next(old(So()), Writes(chunk)) && upBuf.stream == old(upBuf.stream) + chunk
    {
      var offset := upBuf.base + |upBuf.buf|;
      var ok := upBuf.Append(chunk);
      assert ok;
      sends := sends + [Data(offset, chunk)];
    }

    /** Other handlers run while the writer has released the lock. */
    method Yield(events: seq<Event>, ghost o: C.Outcome, ghost before: seq<Event>)
      requires Valid() && (forall ev :: ev in events ==> !ev.Writes?) && So() == Run(o, before)
      modifies this, upBuf
      ensures Valid() && upBuf.stream == old(upBuf.stream)
      ensures So() == Run(o, before + events) && Written(before + events) == Written(before)
    {
      hide Next;
      assert before + events[..0] == before;
      for k := 0 to |events|
        invariant Valid() && upBuf.stream == old(upBuf.stream)
        invariant So() == Run(o, before + events[..k]) && Written(before + events[..k]) == Written(before)
      {
        assert events[k] in events;
        Perform(events[k]);
        RunNext(o, before + events[..k], events[k]);
        WrittenNext(before + events[..k], events[k]);
        assert before + events[..k] + [events[k]] == before + events[..k + 1];
        assert Written(before) + [] == Written(before);
      }
      assert before + events[..|events|] == before + events;
    }

    /** writeUp: retains and sends all of the agent's bytes in order, in chunks that fit, waiting for
        space in between. The lock is released around every send and at every wait; each time, the
        handlers of one entry of `schedule` run, and with none left at a wait the writer is still waiting.
        Every chunk is within the space that is free, so Append is never refused. */
    method WriteUp(data: Bytes, schedule: seq<seq<Event>>) returns (result: Writing, n: nat, ghost trace: seq<Event>)
      requires Valid() && (forall turn, ev :: turn in schedule && ev in turn ==> !ev.Writes?)
      modifies this, upBuf
      ensures Valid()
      ensures n <= |data| && upBuf.stream == old(upBuf.stream) + data[..n]
      ensures result.Done? <==> n == |data|
      ensures result.Dead? ==> dead
      ensures result.Waiting? ==> !dead && upBuf.Value().Free() == 0
      ensures So() == Run(old(So()), trace) && Written(trace) == data[..n]
    {
      hide Run, Next, Written, ClientSession.View, ClientSession.So;
      n, trace := 0, [];
      var turns := 0;
      RunNothing(So());
      WrittenNothing();
      while n < |data|
        invariant Valid() && n <= |data| && turns <= |schedule|
        invariant upBuf.stream == old(upBuf.stream) + data[..n]
        invariant So() == Run(old(So()), trace) && Written(trace) == data[..n]
        decreases |schedule| - turns + |data| - n
      {
        if dead {
          return Dead, n, trace;
        }
        var free := upBuf.max - |upBuf.buf|;
        if free == 0 {
          if turns == |schedule| {
            return Waiting, n, trace;
          }
        } else {
          var take := |data| - n;
          if take > free {
            take := free;
          }
          var chunk := data[n..n + take];
          Send(chunk);
          RunNext(old(So()), trace, Writes(chunk));
          WrittenNext(trace, Writes(chunk));
          trace := trace + [Writes(chunk)];
          assert data[..n] + chunk == data[..n + take];
          n := n + take;
        }
        if turns < |schedule| {
          Yield(schedule[turns], old(So()), trace);
          trace := trace + schedule[turns];
          turns := turns + 1;
        }
      }
      result := Done;
    }
  }
}
