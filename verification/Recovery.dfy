/** Reconnecting: from any reachable state with a live session, one tunnel that loses nothing brings
    both streams up to date. */
module Recovery {
  import opened Streams
  import opened ReplayBuffers
  import opened Messages
  import opened Protocol
  import opened Safety
  import opened Introduction
  import opened Delivery
  import opened Upstream
  import Wire
  import C = ClientSessions
  import B = BrokerSessions

  /** A live session of which the agent has a prefix, all of it if the close was passed on to it, and whose
      downstream replay fits into one DATA frame. */
  ghost predicate Attachable(s: State) {
    && Faithful(s) && s.started
    && s.incs != [] && s.inTable && !s.Cur().s.dead
    && !s.c.dead && (s.c.downClosed ==> s.agentGot == s.Cur().sent)
    && s.agentGot <= s.Cur().sent && |s.Cur().sent| - |s.agentGot| <= Wire.MAX_PAYLOAD
  }

  /** And a dialled one, of which the sidecar has trimmed nothing that upstream does not have, and whose
      upstream replay fits into one DATA frame too. */
  ghost predicate Recoverable(s: State) {
    && Attachable(s) && s.Cur().s.connected
    && s.c.upBuf.base <= |s.Cur().got| && |s.agentSent| - |s.Cur().got| <= Wire.MAX_PAYLOAD
  }

  /** What is left to deliver to the agent, and what is left to give to upstream. */
  function MissingDown(s: State): Bytes
    requires s.incs != [] && |s.agentGot| <= |s.Cur().sent|
  {
    s.Cur().sent[|s.agentGot|..]
  }

  function MissingUp(s: State): Bytes
    requires s.incs != [] && |s.Cur().got| <= |s.agentSent|
  {
    s.agentSent[|s.Cur().got|..]
  }

  lemma Gaps(s: State)
    requires Attachable(s)
    ensures Bound(s) && s.c.downDelivered == |s.agentGot| && s.c.upBuf.Retains(s.agentSent)
    ensures |s.agentGot| <= |s.Cur().sent| && |s.Cur().got| <= |s.agentSent|
    ensures s.agentGot + MissingDown(s) == s.Cur().sent && s.Cur().got + MissingUp(s) == s.agentSent
    ensures s.Cur().s.downBuf.Has(|s.agentGot|) && s.Cur().s.downBuf.From(|s.agentGot|) == MissingDown(s)
    ensures |s.Cur().got| == s.Cur().s.upstreamWritten
  {
    hide Safe, Ordered, Flowing;
    SafeFacts(s);
    RetainsSent(s);
    CurrentTrue(s);
    FromIsTail(s.Cur().s.downBuf, s.Cur().sent, |s.agentGot|);
    assert s.Cur().got <= s.Cur().got + s.Cur().s.preConn;
  }

  /** The sidecar's half of a state, and whether its newest tunnel still takes frames. */
  datatype Half = Half(c: C.Client, agentGot: Bytes, src: seq<Option<nat>>, synced: Option<nat>, upCut: bool)

  function Last(s: State): nat
    requires s.incs != []
  {
    |s.incs| - 1
  }

  /** `s` with one more tunnel, which is up, loses nothing coming down and carries these frames, with this
      sidecar half and this current incarnation. */
  function On(s: State, h: Half, up: seq<Msg>, down: seq<Item>, i: Incarnation): State
    requires s.incs != []
  {
    s.(linked := true, attachDue := false, synced := h.synced, c := h.c, agentGot := h.agentGot, src := h.src,
       tunnels := s.tunnels + [Tunnel(up, down, h.upCut, false, true)], incs := s.incs[Last(s) := i])
  }

  lemma LastTunnel(s: State, h: Half, up: seq<Msg>, down: seq<Item>, i: Incarnation, t: Tunnel, i': Incarnation)
    requires s.incs != []
    ensures var x := On(s, h, up, down, i);
            && x.Newest() == Tunnel(up, down, h.upCut, false, true)
            && x.tunnels[|s.tunnels| := t] == s.tunnels + [t]
            && x.Cur() == i && x.incs[Last(s) := i'] == s.incs[Last(s) := i'] && |x.incs| == |s.incs|
  {
  }

  // ---------------------------------------------------------------- single reads on such a tunnel

  /** What the sidecar sends on a tunnel that takes frames or does not, or that takes all but large ones. */
  lemma SendOn(s: State, h: Half, up: seq<Msg>, down: seq<Item>, i: Incarnation, m: Msg)
    requires s.incs != []
    ensures SendUp(On(s, h, up, down, i), [m]) ==
            if h.upCut then On(s, h, up, down, i)
            else if Encodable(m) then On(s, h, up + [m], down, i)
            else On(s, h.(upCut := true), up, down, i)
  {
    LastTunnel(s, h, up, down, i, Tunnel(up + [m], down, false, false, true), i);
    LastTunnel(s, h, up, down, i, Tunnel(up, down, true, false, true), i);
  }

  lemma PopOn(s: State, h: Half, up: seq<Msg>, item: Item, rest: seq<Item>, i: Incarnation)
    requires s.inTable && s.incs != [] && (i.s.tconn.Some? ==> i.s.tconn.value <= |s.tunnels|)
    ensures var x := On(s, h, up, [item] + rest, i);
            && Enabled(x, ClientReads(true))
            && ClientRead(x, true) == Dispatch(On(s, h, up, rest, i), item, true)
  {
    hide Dispatch;
    var q := [item] + rest;
    LastTunnel(s, h, up, q, i, Tunnel(up, rest, h.upCut, false, true), i);
    assert q[0] == item && q[1..] == rest;
  }

  /** The sidecar's half after ATTACH_OK at `w`, and the frame it sends. */
  function Resynced(h: Half, w: nat, agentSent: Bytes, last: nat): Half {
    var served := h.c.upBuf.base <= w;
    h.(c := h.c.(upBuf := h.c.upBuf.TrimTo(w)), synced := if served then Some(last) else None,
       upCut := served && |agentSent| - w > Wire.MAX_PAYLOAD)
  }

  function Replayed(h: Half, w: nat, agentSent: Bytes): seq<Msg> {
    if h.c.upBuf.base <= w < |agentSent| && |agentSent| - w <= Wire.MAX_PAYLOAD then [Data(w, agentSent[w..])] else []
  }

  lemma ReadAttachOk(s: State, h: Half, rest: seq<Item>, i: Incarnation, w: nat)
    requires s.inTable && s.incs != [] && i.s.tconn == Some(|s.tunnels|) && !h.c.dead && !h.upCut
    requires h.c.upBuf.Retains(s.agentSent) && w <= |s.agentSent|
    ensures var x := On(s, h, [], [Item(Some(Last(s)), AttachOk(w))] + rest, i);
            && Enabled(x, ClientReads(true))
            && ClientRead(x, true) == On(s, Resynced(h, w, s.agentSent, Last(s)), Replayed(h, w, s.agentSent), rest, i)
  {
    hide SendUp, ClientRead, Enabled, C.Serves;
    var item := Item(Some(Last(s)), AttachOk(w));
    PopOn(s, h, [], item, rest, i);
    ServesIff(h.c, s.agentSent, w);
    var o, x := C.OnAttachOk(h.c, w), On(s, h, [], rest, i);
    var h1 := h.(c := o.c, synced := if h.c.upBuf.base <= w then Some(Last(s)) else None);
    assert x.(c := o.c, synced := h1.synced) == On(s, h1, [], rest, i);
    if o.send != [] {
      SendOn(s, h1, [], rest, i, o.send[0]);
      assert [] + [o.send[0]] == [o.send[0]] == o.send;
    } else {
      SendNothing(On(s, h1, [], rest, i));
    }
  }

  lemma SendNothing(x: State)
    requires x.linked ==> x.tunnels != []
    ensures SendUp(x, []) == x
  {
  }

  function HalfAfter(h: Half, p: Bytes, last: nat): Half {
    h.(c := h.c.(downDelivered := |h.agentGot| + |p|), agentGot := h.agentGot + p,
       src := h.src + Times(|p|, Some(last)))
  }

  lemma ReadData(s: State, h: Half, up: seq<Msg>, rest: seq<Item>, i: Incarnation, p: Bytes)
    requires s.inTable && s.incs != [] && i.s.tconn == Some(|s.tunnels|) && !h.c.dead && !h.c.downClosed
    requires h.c.downDelivered == |h.agentGot| && p != []
    ensures var d := |h.agentGot|;
            var x := On(s, h, up, [Item(Some(Last(s)), Data(d, p))] + rest, i);
            && Enabled(x, ClientReads(true))
            && ClientRead(x, true) == On(s, HalfAfter(h, p, Last(s)), if h.upCut then up else up + [Ack(d + |p|)],
                                         rest, i)
  {
    hide Dispatch, SendUp, ClientRead, Enabled;
    var d := |h.agentGot|;
    PopOn(s, h, up, Item(Some(Last(s)), Data(d, p)), rest, i);
    DispatchData(On(s, h, up, rest, i), Some(Last(s)), d, p, true);
    assert Fresh(d, d, p) == p;
    SendOn(s, HalfAfter(h, p, Last(s)), up, rest, i, Ack(d + |p|));
  }

  lemma ReadClose(s: State, h: Half, up: seq<Msg>, rest: seq<Item>, i: Incarnation)
    requires s.inTable && s.incs != [] && i.s.tconn == Some(|s.tunnels|) && !h.c.dead
    ensures var x := On(s, h, up, [Item(Some(Last(s)), CloseDown)] + rest, i);
            && Enabled(x, ClientReads(true))
            && ClientRead(x, true) == On(s, h.(c := h.c.(downClosed := true)), up, rest, i)
  {
    hide ClientRead, Enabled;
    PopOn(s, h, up, Item(Some(Last(s)), CloseDown), rest, i);
  }

  lemma ReadAck(s: State, h: Half, up: seq<Msg>, rest: seq<Item>, i: Incarnation, w: nat)
    requires s.inTable && s.incs != [] && i.s.tconn == Some(|s.tunnels|) && !h.c.dead
    ensures var x := On(s, h, up, [Item(Some(Last(s)), Ack(w))] + rest, i);
            && Enabled(x, ClientReads(true))
            && ClientRead(x, true) == On(s, h.(c := h.c.(upBuf := h.c.upBuf.TrimTo(w))), up, rest, i)
  {
    hide ClientRead, Enabled;
    PopOn(s, h, up, Item(Some(Last(s)), Ack(w)), rest, i);
  }

  /** The broker takes the replayed bytes, gives them to upstream and acknowledges them. */
  function Took(i: Incarnation, p: Bytes): Incarnation {
    i.(s := i.s.(upstreamWritten := i.s.upstreamWritten + |p|, requestOutstanding := true, watchdog := true),
       got := i.got + p)
  }

  lemma TakeEffect(i: Incarnation, p: Bytes)
    requires i.s.tconn.Some? && !i.s.dead && i.s.connected && p != []
    ensures var e := B.OnData(i.s, i.s.upstreamWritten, p, true, 1);
            AfterEffect(i, e, []) == Took(i, p) && e.sent == [Ack(i.s.upstreamWritten + |p|)] && !e.broke
  {
    var w := i.s.upstreamWritten;
    assert Fresh(w, w, p) == p;
    B.TransmitFacts(i.s.(upstreamWritten := w + |p|, requestOutstanding := true, watchdog := true), [Ack(w + |p|)], 1);
    assert i.sent + [] == i.sent;
  }

  /** The broker takes a frame off such a tunnel. */
  lemma PopUpOn(s: State, h: Half, m: Msg, rest: seq<Msg>, down: seq<Item>, i: Incarnation)
    requires s.inTable && s.incs != [] && i.s.tconn == Some(|s.tunnels|)
    ensures var n, x := |s.tunnels|, On(s, h, [m] + rest, down, i);
            && Enabled(x, BrokerReads(n, true, 1))
            && BrokerRead(x, n, true, 1) == Handle(On(s, h, rest, down, i), n, m, true, 1)
  {
    hide Handle;
    var q := [m] + rest;
    LastTunnel(s, h, q, down, i, Tunnel(rest, down, h.upCut, false, true), i);
    assert q[0] == m && q[1..] == rest;
  }

  lemma ActOn(s: State, h: Half, up: seq<Msg>, down: seq<Item>, i: Incarnation, e: B.Effect)
    requires s.incs != [] && !e.broke
    ensures Act(On(s, h, up, down, i), e, Some(|s.tunnels|), []) ==
            On(s, h, up, down + Tag(Last(s), e.sent), AfterEffect(i, e, []))
    ensures Act(On(s, h, up, down, i), e, None, []) == On(s, h, up, down, AfterEffect(i, e, []))
  {
    hide Tag, AfterEffect;
    LastTunnel(s, h, up, down, i, Tunnel(up, down + Tag(Last(s), e.sent), h.upCut, false, true), AfterEffect(i, e, []));
  }

  lemma TakeData(s: State, h: Half, rest: seq<Msg>, down: seq<Item>, i: Incarnation, p: Bytes)
    requires s.inTable && s.incs != [] && i.s.tconn == Some(|s.tunnels|) && !i.s.dead && i.s.connected && p != []
    ensures var w, n := i.s.upstreamWritten, |s.tunnels|;
            var x := On(s, h, [Data(w, p)] + rest, down, i);
            && Enabled(x, BrokerReads(n, true, 1))
            && BrokerRead(x, n, true, 1) == On(s, h, rest, down + [Item(Some(Last(s)), Ack(w + |p|))], Took(i, p))
  {
    hide B.OnData, BrokerRead, Enabled, Act;
    var w, n := i.s.upstreamWritten, |s.tunnels|;
    PopUpOn(s, h, Data(w, p), rest, down, i);
    TakeEffect(i, p);
    var e, x := B.OnData(i.s, w, p, true, 1), On(s, h, rest, down, i);
    assert Tag(Last(s), e.sent) == [Item(Some(Last(s)), Ack(w + |p|))];
    LastTunnel(s, h, rest, down, i, Tunnel(rest, down, h.upCut, false, true), i);
    assert MarkFailure(x, false) == x;
    ActOn(s, h, rest, down, i, e);
  }

  lemma TakeAck(s: State, h: Half, rest: seq<Msg>, down: seq<Item>, i: Incarnation, offset: nat)
    requires s.inTable && s.incs != [] && i.s.tconn == Some(|s.tunnels|)
    ensures var n := |s.tunnels|;
            var x := On(s, h, [Ack(offset)] + rest, down, i);
            && Enabled(x, BrokerReads(n, true, 1))
            && BrokerRead(x, n, true, 1) == On(s, h, rest, down, i.(s := B.OnAck(i.s, offset)))
  {
    hide B.OnAck, BrokerRead, Enabled, Act;
    PopUpOn(s, h, Ack(offset), rest, down, i);
    LastTunnel(s, h, rest, down, i, Tunnel(rest, down, h.upCut, false, true), i);
    ActOn(s, h, rest, down, i, B.Quiet(B.OnAck(i.s, offset)));
    assert i.got + [] == i.got && i.sent + [] == i.sent;
    AckKeepsClose(i.s, offset);
  }

  lemma AckKeepsClose(b: B.Session, offset: nat)
    ensures B.OnAck(b, offset).downClosed == b.downClosed
  {
  }

  // ---------------------------------------------------------------- dial, ATTACH, replies

  /** After the broker has answered the ATTACH on a new tunnel. */
  function Attached(s: State): State
    requires s.incs != []
  {
    var i := s.Cur();
    On(s, Half(s.c, s.agentGot, s.src, None, false), [], Tag(Last(s), B.AttachReply(i.s, |s.agentGot|)),
       i.(s := B.Bind(i.s, |s.tunnels|)))
  }

  /** Before that: the ATTACH is on its way. */
  function Asking(s: State): State {
    s.(linked := true, attachDue := false, synced := None,
       tunnels := s.tunnels + [Tunnel([Attach(|s.agentGot|)], [], false, false, true)])
  }

  lemma ReplyFits(s: State)
    requires Attachable(s)
    ensures forall m :: m in B.AttachReply(s.Cur().s, |s.agentGot|) ==> Encodable(m)
    ensures |B.AttachReply(s.Cur().s, |s.agentGot|)| <= 3
  {
    hide Faithful;
    Gaps(s);
  }

  lemma Redial(s: State)
    requires Bound(s) && s.started && !s.c.dead && s.c.downDelivered == |s.agentGot| && !s.linked
    ensures Enabled(s, Connect)
    ensures Enabled(Connected(s), SendAttach)
    ensures SentAttach(Connected(s)) == Asking(s)
  {
    var s1 := Connected(s);
    assert s1.Newest() == Tunnel([], [], false, false, true);
    assert [] + [Attach(|s.agentGot|)] == [Attach(|s.agentGot|)];
    var t := Tunnel([Attach(|s.agentGot|)], [], false, false, true);
    assert s1.tunnels[|s.tunnels| := t] == s.tunnels + [t];
  }

  lemma AskingIs(s: State)
    requires s.incs != []
    ensures Asking(s) == On(s, Half(s.c, s.agentGot, s.src, None, false), [Attach(|s.agentGot|)] + [], [], s.Cur())
  {
    assert s.incs[Last(s) := s.Cur()] == s.incs;
    assert [Attach(|s.agentGot|)] + [] == [Attach(|s.agentGot|)];
  }

  lemma Answer(s: State)
    requires Attachable(s) && !s.linked
    ensures Enabled(Asking(s), BrokerReads(|s.tunnels|, true, 3))
    ensures BrokerRead(Asking(s), |s.tunnels|, true, 3) == Attached(s)
  {
    hide Faithful, B.OnAttach, B.AttachReply, Act;
    var n, d, i := |s.tunnels|, |s.agentGot|, s.Cur();
    var h := Half(s.c, s.agentGot, s.src, None, false);
    Gaps(s);
    AskingIs(s);
    var q := [Attach(d)] + [];
    assert q[0] == Attach(d) && q[1..] == [];
    LastTunnel(s, h, q, [], i, Tunnel([], [], false, false, true), i);
    assert PopUp(Asking(s), n) == On(s, h, [], [], i);
    LastTunnel(s, h, [], [], i, Tunnel([], [], false, false, true), i);
    AnswerEffect(s);
    var e := B.OnAttach(i.s, n, d, 3);
    ActOn(s, h, [], [], i, e);
    assert [] + Tag(Last(s), e.sent) == Tag(Last(s), e.sent);
  }

  lemma AnswerEffect(s: State)
    requires Attachable(s)
    ensures var e := B.OnAttach(s.Cur().s, |s.tunnels|, |s.agentGot|, 3);
            && e.sent == B.AttachReply(s.Cur().s, |s.agentGot|) && !e.broke
            && AfterEffect(s.Cur(), e, []) == s.Cur().(s := B.Bind(s.Cur().s, |s.tunnels|))
  {
    var n, d, i := |s.tunnels|, |s.agentGot|, s.Cur();
    ReplyFits(s);
    B.TransmitFacts(B.Bind(i.s, n), B.AttachReply(i.s, d), 3);
    assert i.got + [] == i.got && i.sent + [] == i.sent;
  }

  // ---------------------------------------------------------------- the whole exchange

  lemma AttachPhase(s: State) returns (run: seq<Action>)
    requires Attachable(s) && !s.linked
    ensures Arrives(s, run, Attached(s))
  {
    hide Attached, Asking, Connected, SentAttach, BrokerRead, Arrives, Faithful;
    Gaps(s);
    Redial(s);
    Answer(s);
    EmptyRun(s);
    Extend(s, [], s, Connect);
    Extend(s, [] + [Connect], Connected(s), SendAttach);
    Extend(s, [] + [Connect] + [SendAttach], Asking(s), BrokerReads(|s.tunnels|, true, 3));
    run := [] + [Connect] + [SendAttach] + [BrokerReads(|s.tunnels|, true, 3)];
  }

  /** The sidecar reads the replayed bytes, if there are any, and acknowledges them if it can. */
  lemma ReadReplay(s: State, run0: seq<Action>, h0: Half, sent: seq<Msg>, rest: seq<Item>, i: Incarnation, down: Bytes)
    returns (run: seq<Action>, h: Half)
    requires s.inTable && s.incs != [] && i.s.tconn == Some(|s.tunnels|)
    requires !h0.c.dead && h0.c.downDelivered == |h0.agentGot| && (down != [] ==> !h0.c.downClosed)
    requires Arrives(s, run0, On(s, h0, sent, ReplayItems(Last(s), |h0.agentGot|, down) + rest, i))
    ensures h == if down == [] then h0 else HalfAfter(h0, down, Last(s))
    ensures Arrives(s, run, On(s, h, sent + ReplayAcks(h0, down), rest, i))
  {
    hide On, ClientRead, Arrives;
    run, h := run0, h0;
    if down == [] {
      assert [] + rest == rest && sent + [] == sent;
    } else {
      ReadData(s, h0, sent, rest, i, down);
      Extend(s, run0, On(s, h0, sent, ReplayItems(Last(s), |h0.agentGot|, down) + rest, i), ClientReads(true));
      run := run0 + [ClientReads(true)];
      h := HalfAfter(h0, down, Last(s));
      assert sent + [] == sent;
    }
  }

  function ReplayItems(last: nat, d: nat, down: Bytes): seq<Item> {
    if down == [] then [] else [Item(Some(last), Data(d, down))]
  }

  function ReplayAcks(h: Half, down: Bytes): seq<Msg> {
    if h.upCut || down == [] then [] else [Ack(|h.agentGot| + |down|)]
  }

  function EndItems(last: nat, closed: bool): seq<Item> { if closed then [Item(Some(last), CloseDown)] else [] }

  /** The sidecar reads the close, if there is one. */
  lemma ReadEnd(s: State, run0: seq<Action>, h0: Half, sent: seq<Msg>, i: Incarnation, closed: bool)
    returns (run: seq<Action>, h: Half)
    requires s.inTable && s.incs != [] && i.s.tconn == Some(|s.tunnels|) && !h0.c.dead
    requires Arrives(s, run0, On(s, h0, sent, EndItems(Last(s), closed), i))
    ensures h == if closed then h0.(c := h0.c.(downClosed := true)) else h0
    ensures Arrives(s, run, On(s, h, sent, [], i))
  {
    hide On, ClientRead, Arrives;
    run, h := run0, h0;
    if closed {
      assert EndItems(Last(s), closed) == [Item(Some(Last(s)), CloseDown)] + [];
      ReadClose(s, h0, sent, [], i);
      Extend(s, run0, On(s, h0, sent, EndItems(Last(s), closed), i), ClientReads(true));
      run := run0 + [ClientReads(true)];
      h := h0.(c := h0.c.(downClosed := true));
    }
  }

  /** The sidecar reads the replies: the agent is up to date, the missing upstream bytes are on their way
      if they can be, and the new downstream bytes, if any, are acknowledged if they can be. */
  lemma ReadPhase(s: State) returns (run: seq<Action>, h: Half)
    requires Attachable(s) && !s.linked
    ensures var i, w := s.Cur(), |s.Cur().got|;
            var h0 := Half(s.c, s.agentGot, s.src, None, false);
            && |s.agentGot| <= |i.sent| && w <= |s.agentSent|
            && Arrives(s, run, On(s, h, Replayed(h0, w, s.agentSent) +
                                        (if h.upCut || MissingDown(s) == [] then [] else [Ack(|i.sent|)]),
                                  [], i.(s := B.Bind(i.s, |s.tunnels|))))
            && h.agentGot == i.sent && !h.c.dead && h.c.downClosed == (s.c.downClosed || i.s.downClosed)
            && h.c.upBuf == s.c.upBuf.TrimTo(w) && h.upCut == Resynced(h0, w, s.agentSent, 0).upCut
  {
    hide Attachable, On, ClientRead, Arrives, B.AttachReply, Tag, Replayed;
    Gaps(s);
    AttachableFacts(s);
    run := AttachPhase(s);
    var i, w, last := s.Cur().(s := B.Bind(s.Cur().s, |s.tunnels|)), |s.Cur().got|, Last(s);
    var down := MissingDown(s);
    var rest := ReplayItems(last, |s.agentGot|, down) + EndItems(last, i.s.downClosed);
    var h0 := Half(s.c, s.agentGot, s.src, None, false);
    var sent := Replayed(h0, w, s.agentSent);
    ReplyInOrder(s.Cur().s, |s.agentGot|, down, last);
    AttachedIs(s);
    ReadAttachOk(s, h0, rest, i, w);
    Extend(s, run, On(s, h0, [], [Item(Some(last), AttachOk(w))] + rest, i), ClientReads(true));
    var h1 := Resynced(h0, w, s.agentSent, last);
    run, h := ReadReplay(s, run + [ClientReads(true)], h1, sent, EndItems(last, i.s.downClosed), i, down);
    run, h := ReadEnd(s, run, h, sent + ReplayAcks(h1, down), i, i.s.downClosed);
    assert down == [] ==> s.agentGot + down == s.agentGot;
  }

  lemma AttachedIs(s: State)
    requires s.incs != []
    ensures Attached(s) == On(s, Half(s.c, s.agentGot, s.src, None, false), [],
                              Tag(Last(s), B.AttachReply(s.Cur().s, |s.agentGot|)),
                              s.Cur().(s := B.Bind(s.Cur().s, |s.tunnels|)))
  {
  }

  lemma AttachableFacts(s: State)
    requires Attachable(s)
    ensures s.incs != [] && s.inTable && !s.c.dead && !s.Cur().s.dead && (s.c.downClosed ==> s.agentGot == s.Cur().sent)
  {
  }

  function UpQueue(w: nat, tail: Bytes): seq<Msg> { if tail == [] then [] else [Data(w, tail)] }

  function Back(up: Bytes, w: nat, last: nat): seq<Item> { if up == [] then [] else [Item(Some(last), Ack(w + |up|))] }

  function TookMaybe(i: Incarnation, up: Bytes): Incarnation { if up == [] then i else Took(i, up) }

  /** The broker takes the missing upstream bytes, if there are any. */
  lemma TakePhase(s: State, run0: seq<Action>, h: Half, acks: seq<Msg>, i: Incarnation, up: Bytes)
    returns (run: seq<Action>)
    requires s.inTable && s.incs != [] && i.s.tconn == Some(|s.tunnels|) && !i.s.dead && i.s.connected
    requires i.s.upstreamWritten == |i.got|
    requires Arrives(s, run0, On(s, h, UpQueue(|i.got|, up) + acks, [], i))
    ensures Arrives(s, run, On(s, h, acks, Back(up, |i.got|, Last(s)), TookMaybe(i, up)))
  {
    hide On, BrokerRead, Arrives, Took;
    if up == [] {
      assert UpQueue(|i.got|, up) + acks == acks;
      run := run0;
    } else {
      TakeData(s, h, acks, [], i, up);
      Extend(s, run0, On(s, h, [Data(|i.got|, up)] + acks, [], i), BrokerReads(|s.tunnels|, true, 1));
      run := run0 + [BrokerReads(|s.tunnels|, true, 1)];
      assert [] + Back(up, |i.got|, Last(s)) == Back(up, |i.got|, Last(s));
    }
  }

  /** The broker takes the sidecar's acknowledgement, if there is one. */
  lemma TrimPhase(s: State, run0: seq<Action>, h: Half, back: seq<Item>, i: Incarnation, acked: bool, offset: nat)
    returns (run: seq<Action>)
    requires s.inTable && s.incs != [] && i.s.tconn == Some(|s.tunnels|)
    requires Arrives(s, run0, On(s, h, if acked then [Ack(offset)] else [], back, i))
    ensures Arrives(s, run, On(s, h, [], back, if acked then i.(s := B.OnAck(i.s, offset)) else i))
  {
    hide On, BrokerRead, Arrives;
    run := run0;
    if acked {
      assert [Ack(offset)] + [] == [Ack(offset)];
      TakeAck(s, h, [], back, i, offset);
      Extend(s, run0, On(s, h, [Ack(offset)], back, i), BrokerReads(|s.tunnels|, true, 1));
      run := run0 + [BrokerReads(|s.tunnels|, true, 1)];
    }
  }

  /** The broker takes the missing bytes and the acknowledgement, and the sidecar the broker's. */
  lemma AckPhase(s: State, run0: seq<Action>, h0: Half, i0: Incarnation, up: Bytes, acked: bool)
    returns (run: seq<Action>, h: Half, i: Incarnation)
    requires s.inTable && s.incs != [] && i0.s.tconn == Some(|s.tunnels|) && !i0.s.dead && i0.s.connected && !h0.c.dead
    requires i0.s.upstreamWritten == |i0.got|
    requires h0.c.upBuf.base == |i0.got| && h0.c.upBuf.bytes == up
    requires Arrives(s, run0, On(s, h0, UpQueue(|i0.got|, up) + (if acked then [Ack(|i0.sent|)] else []), [], i0))
    ensures Arrives(s, run, On(s, h, [], [], i))
    ensures i.got == i0.got + up && i.sent == i0.sent
    ensures i.s.downBuf == if acked then i0.s.downBuf.TrimTo(|i0.sent|) else i0.s.downBuf
    ensures h == h0.(c := h.c) && h.c == h0.c.(upBuf := h0.c.upBuf.(base := |i0.got| + |up|, bytes := []))
  {
    hide On, ClientRead, Arrives;
    var w := |i0.got|;
    run := TakePhase(s, run0, h0, if acked then [Ack(|i0.sent|)] else [], i0, up);
    var i1 := TookMaybe(i0, up);
    AckTrims(i1.s, |i0.sent|);
    run := TrimPhase(s, run, h0, Back(up, w, Last(s)), i1, acked, |i0.sent|);
    i := if acked then i1.(s := B.OnAck(i1.s, |i0.sent|)) else i1;
    h := h0.(c := h0.c.(upBuf := h0.c.upBuf.(base := w + |up|, bytes := [])));
    if up != [] {
      assert Back(up, w, Last(s)) == [Item(Some(Last(s)), Ack(w + |up|))] + [];
      ReadAck(s, h0, [], [], i, w + |up|);
      Extend(s, run, On(s, h0, [], Back(up, w, Last(s)), i), ClientReads(true));
      run := run + [ClientReads(true)];
    } else {
      assert i0.got + up == i0.got;
    }
  }

  lemma AckTrims(b: B.Session, offset: nat)
    ensures B.OnAck(b, offset).downBuf == b.downBuf.TrimTo(offset) && B.OnAck(b, offset).tconn == b.tconn
  {
  }

  /** What one reconnect over a tunnel that loses nothing achieves: upstream has everything the agent
      sent, the agent has everything read from upstream (and its end, if it ended), and the sidecar
      retains nothing. The broker's buffer is emptied exactly when there was something to replay or
      it was empty before: an ATTACH that already stands at the end of the stream is not taken as an
      acknowledgement, so bytes whose ACK was lost stay retained. */
  ghost predicate Recovered(s: State, s': State) {
    && s.incs != [] && |s'.incs| == |s.incs|
    && s'.agentSent == s.agentSent && s'.Cur().sent == s.Cur().sent
    && s'.Cur().got == s.agentSent
    && s'.agentGot == s.Cur().sent
    && s'.c.downClosed == (s.c.downClosed || s.Cur().s.downClosed)
    && s'.c.upBuf.bytes == []
    && (s'.Cur().s.downBuf.bytes == [] <==> |s.agentGot| < |s.Cur().sent| || s.Cur().s.downBuf.bytes == [])
  }

  lemma RedialRecovers(s: State) returns (run: seq<Action>)
    requires Recoverable(s) && !s.linked
    ensures Legal(s, run) && Recovered(s, Exec(s, run))
  {
    hide Attachable;
    Gaps(s);
    AttachableFacts(s);
    var run1, h1 := ReadPhase(s);
    var i1 := s.Cur().(s := B.Bind(s.Cur().s, |s.tunnels|));
    var w := |s.Cur().got|;
    TrimmedTo(s.c.upBuf, s.agentSent, w);
    var run2, h2, i2 := AckPhase(s, run1, h1, i1, MissingUp(s), MissingDown(s) != []);
    run := run2;
    WindowEnd(s);
  }

  lemma TrimmedTo(w: Window, stream: Bytes, offset: nat)
    requires w.Retains(stream) && w.base <= offset <= |stream|
    ensures w.TrimTo(offset).base == offset && w.TrimTo(offset).bytes == stream[offset..]
  {
    TrimRetains(w, stream, offset);
  }

  lemma WindowEnd(s: State)
    requires Attachable(s)
    ensures s.Cur().s.downBuf.End() == |s.Cur().sent|
  {
    CurrentTrue(s);
  }

  lemma DisconnectKeeps(s: State)
    requires Attachable(s) && s.linked
    ensures Enabled(s, Disconnect) && Attachable(Step(s, Disconnect)) && !Step(s, Disconnect).linked
    ensures var s' := Step(s, Disconnect); s' == s.(linked := false, attachDue := false)
  {
    hide Safe, Ordered, Flowing;
    SafeFacts(s);
    StepFaithful(s, Disconnect);
  }

  /** Recoverability: from every recoverable state there is a run of one reconnect that recovers. */
  lemma ReconnectRecovers(s: State) returns (run: seq<Action>)
    requires Recoverable(s)
    ensures Legal(s, run) && Recovered(s, Exec(s, run))
  {
    hide Attachable, Step;
    if s.linked {
      DisconnectKeeps(s);
      run := RedialRecovers(Step(s, Disconnect));
      OneStep(s, Disconnect);
      RunThen(s, [Disconnect], run);
      run := [Disconnect] + run;
    } else {
      run := RedialRecovers(s);
    }
  }

  /** The agent's side alone, whatever has become of the upstream direction. */
  lemma ReconnectDelivers(s: State) returns (run: seq<Action>)
    requires Attachable(s)
    ensures Legal(s, run) && Exec(s, run).agentGot == s.Cur().sent
    ensures var s' := Exec(s, run);
            && s'.c.downClosed == (s.c.downClosed || s.Cur().s.downClosed)
            && s'.inTable && |s'.incs| == |s.incs| && |s'.tunnels| == |s.tunnels| + 1
            && s'.Cur() == s.Cur().(s := B.Bind(s.Cur().s, |s.tunnels|))
  {
    hide Attachable, Step;
    AttachableFacts(s);
    var s1 := s;
    if s.linked {
      DisconnectKeeps(s);
      s1 := Step(s, Disconnect);
    }
    var h;
    run, h := ReadPhase(s1);
    if s.linked {
      OneStep(s, Disconnect);
      RunThen(s, [Disconnect], run);
      run := [Disconnect] + run;
    }
  }

  /** A session that is still dialling becomes recoverable when the dial completes. */
  lemma DialMakesRecoverable(s: State)
    requires Attachable(s) && !s.Cur().s.connected
    requires s.c.upBuf.base <= B.Mark(s.Cur().s) && |s.agentSent| - B.Mark(s.Cur().s) <= Wire.MAX_PAYLOAD
    ensures Enabled(s, DialDone(true, 1)) && Recoverable(Step(s, DialDone(true, 1)))
    ensures var s' := Step(s, DialDone(true, 1));
            s'.agentSent == s.agentSent && s'.Cur().sent == s.Cur().sent && |s'.incs| == |s.incs|
  {
    hide Ordered, Flowing, Safe;
    SafeFacts(s);
    CurrentTrue(s);
    StepFaithful(s, DialDone(true, 1));
    DialEffect(s.Cur(), s.agentSent, |s.agentGot|);
    ActChanges(MarkFailure(s, false), B.DialDone(s.Cur().s, true, 1), s.Cur().s.tconn, []);
  }

  lemma DialEffect(i: Incarnation, a: Bytes, d: nat)
    requires IncarnationTrue(i, a, d) && !i.s.connected && !i.s.dead
    ensures var i' := AfterEffect(i, B.DialDone(i.s, true, 1), []);
            i'.s.connected && !i'.s.dead && |i'.got| == B.Mark(i.s) && i'.sent == i.sent
  {
    var w := i.s.upstreamWritten + |i.s.preConn|;
    var s2 := i.s.(connected := true, preConn := [], watchdog := true, reading := true, upstreamWritten := w,
                   requestOutstanding := true);
    B.TransmitFacts(s2, [Ack(w)], 1);
  }
}
