/** One session of the resumable tunnel as a state machine: agent, sidecar, every tunnel the sidecar
    ever dialled, broker, and every incarnation of the session that the broker ever held. */
module Protocol {
  import opened Streams
  import opened Messages
  import C = ClientSessions
  import B = BrokerSessions

  /** A frame on its way to the sidecar, with the incarnation that sent it; the close for a session that
      the broker does not hold comes from none. */
  datatype Item = Item(inc: Option<nat>, msg: Msg)

  /** One dialled tunnel: the session's frames in flight in both directions. A direction that is cut
      swallows everything written to it. `brokerOpen` is false once the broker's frame loop is over. */
  datatype Tunnel = Tunnel(up: seq<Msg>, down: seq<Item>, upCut: bool, downCut: bool, brokerOpen: bool)

  /** A session object of the broker with its history: the bytes its upstream was given, the bytes it
      read from upstream, how many of those there were when the close was recorded, and whether it was a
      failed write to upstream that recorded it. */
  datatype Incarnation = Incarnation(s: B.Session, got: Bytes, sent: Bytes, closedAt: nat, cutShort: bool)

  /** `src[k]` is the incarnation from which the agent's k-th byte came. `attachDue` says that the
      tunnel is up but the session's ATTACH not yet written, so that the sidecar does not read yet.
      `synced` is the incarnation with which the upstream half has been (re)started on the newest tunnel, if
      no write to upstream has failed since.
      The last incarnation is the one in the session table when `inTable`. */
  datatype State = State(
    started: bool,
    agentSent: Bytes,
    agentGot: Bytes,
    src: seq<Option<nat>>,
    c: C.Client,
    linked: bool,
    attachDue: bool,
    synced: Option<nat>,
    tunnels: seq<Tunnel>,
    incs: seq<Incarnation>,
    inTable: bool,
    downMax: nat)
  {
    function Newest(): Tunnel
      requires tunnels != []
    {
      tunnels[|tunnels| - 1]
    }

    function Cur(): Incarnation
      requires incs != []
    {
      incs[|incs| - 1]
    }
  }

  function Init(upMax: nat, downMax: nat): State {
    State(false, [], [], [], C.New(upMax), false, false, None, [], [], false, downMax)
  }

  /** proxy.go and readUpstreamLoop read in chunks of this size. */
  const CHUNK: nat := 32 * 1024

  datatype Action =
    | OpenSession                                          // sidecar registers the session and sends OPEN
    | AgentWrites(chunk: Bytes)                            // one chunk of writeUp
    | AgentCloses                                          // closeUp
    | Connect                                              // a new tunnel is dialled and becomes current
    | SendAttach                                           // its ATTACH is written
    | Disconnect                                           // the sidecar gives its tunnel up
    | ClientReads(agentOk: bool)                           // one frame of readLoop; the agent may refuse it
    | CutUp(e: nat, keep: nat)                             // tunnel e loses a suffix, and all later frames
    | CutDown(e: nat, keep: nat)
    | BrokerReads(e: nat, upstreamOk: bool, budget: nat)   // one frame of tunnel e's frame loop
    | BrokerDrops(e: nat)                                  // the frame loop of tunnel e ends: detachAll
    | DialDone(flushOk: bool, budget: nat)
    | DialFails(budget: nat)
    | UpstreamSends(chunk: Bytes, writeOk: bool)           // one chunk of produceDownstream
    | UpstreamEof(budget: nat)
    | WatchdogFires
    | Remove                                               // the second half of destroy

  // ---------------------------------------------------------------- tunnels

  /** The sidecar's send: on the newest tunnel if it is up, refused by the encoder if oversized. */
  function SendUp(s: State, msgs: seq<Msg>): State
    requires s.linked ==> s.tunnels != []
  {
    if !s.linked || msgs == [] || s.Newest().upCut then s
    else
      var t := s.Newest();
      var t' := if Encodable(msgs[0]) then t.(up := t.up + [msgs[0]]) else t.(upCut := true);
      s.(tunnels := s.tunnels[|s.tunnels| - 1 := t'])
  }

  lemma SendUpChanges(s: State, msgs: seq<Msg>)
    requires s.linked ==> s.tunnels != []
    ensures var s' := SendUp(s, msgs);
            && s' == s.(tunnels := s'.tunnels)
            && |s'.tunnels| == |s.tunnels|
            && (s.tunnels != [] ==>
                  && s'.Newest() == s.Newest().(up := s'.Newest().up, upCut := s'.Newest().upCut)
                  && (s'.Newest().up == s.Newest().up || (msgs != [] && s'.Newest().up == s.Newest().up + [msgs[0]])))
  {
  }

  function Tag(inc: nat, msgs: seq<Msg>): (items: seq<Item>)
    ensures |items| == |msgs|
    ensures forall i :: 0 <= i < |msgs| ==> items[i] == Item(Some(inc), msgs[i])
  {
    if msgs == [] then [] else [Item(Some(inc), msgs[0])] + Tag(inc, msgs[1..])
  }

  function PushDown(t: Tunnel, items: seq<Item>, broke: bool): Tunnel {
    t.(down := if t.downCut then t.down else t.down + items, downCut := t.downCut || broke)
  }

  // ---------------------------------------------------------------- broker

  function AfterEffect(i: Incarnation, e: B.Effect, read: Bytes): Incarnation {
    i.(s := e.s, got := i.got + e.upstream, sent := i.sent + read,
       closedAt := if !i.s.downClosed && e.s.downClosed then |i.sent| else i.closedAt)
  }

  /** The current incarnation takes a step; its frames go to tunnel `at`. */
  function Act(s: State, e: B.Effect, at: Option<nat>, read: Bytes): State
    requires s.incs != []
    requires at.Some? ==> at.value < |s.tunnels|
  {
    var s1 := s.(incs := s.incs[|s.incs| - 1 := AfterEffect(s.Cur(), e, read)]);
    if at.None? then s1
    else s1.(tunnels := s.tunnels[at.value := PushDown(s.tunnels[at.value], Tag(|s.incs| - 1, e.sent), e.broke)])
  }

  /** What a step of the current incarnation changes: the incarnation itself, and the frames coming
      down on the tunnel it writes to. */
  lemma ActChanges(s: State, e: B.Effect, at: Option<nat>, read: Bytes)
    requires s.incs != []
    requires at.Some? ==> at.value < |s.tunnels|
    ensures var s' := Act(s, e, at, read);
            && s' == s.(tunnels := s'.tunnels, incs := s'.incs)
            && |s'.tunnels| == |s.tunnels| && |s'.incs| == |s.incs|
            && s'.Cur() == AfterEffect(s.Cur(), e, read)
            && (forall i :: 0 <= i < |s.incs| - 1 ==> s'.incs[i] == s.incs[i])
            && (s.tunnels != [] ==>
                  s'.Newest() == if at == Some(|s.tunnels| - 1)
                                 then PushDown(s.Newest(), Tag(|s.incs| - 1, e.sent), e.broke)
                                 else s.Newest())
  {
    hide Tag;
    var s', i' := Act(s, e, at, read), AfterEffect(s.Cur(), e, read);
    assert s'.incs == s.incs[|s.incs| - 1 := i'];
    if at.Some? {
      assert s'.tunnels == s.tunnels[at.value := PushDown(s.tunnels[at.value], Tag(|s.incs| - 1, e.sent), e.broke)];
    }
  }

  function SetSession(s: State, b: B.Session): State
    requires s.incs != []
  {
    Act(s, B.Quiet(b), None, [])
  }

  /** openSession for a key that is not in the table. */
  function Create(s: State, e: nat): State {
    s.(incs := s.incs + [Incarnation(B.Bind(B.New(s.downMax), e), [], [], 0, false)], inTable := true)
  }

  /** A write to upstream is about to fail, which records the close unless there is one. */
  function Failing(i: Incarnation, failed: bool): Incarnation {
    i.(cutShort := i.cutShort || (failed && !i.s.downClosed))
  }

  function MarkFailure(s: State, failed: bool): State
    requires s.incs != []
  {
    s.(synced := if failed then None else s.synced, incs := s.incs[|s.incs| - 1 := Failing(s.Cur(), failed)])
  }

  /** An upstream write is attempted for this DATA frame. */
  predicate WritesUpstream(b: B.Session, offset: nat, p: Bytes) {
    !b.dead && b.connected && Accepts(b.upstreamWritten, offset, p)
  }

  /** handleFrame, with openSession and attachSession. */
  function Handle(s: State, e: nat, m: Msg, upstreamOk: bool, budget: nat): State
    requires Bound(s)
    requires e < |s.tunnels|
  {
    match m
    case Open =>
      if s.inTable then Act(s, B.OnAttach(s.Cur().s, e, 0, budget), Some(e), []) else Create(s, e)
    case Attach(d) =>
      if s.inTable then Act(s, B.OnAttach(s.Cur().s, e, d, budget), Some(e), [])
      else if d == 0 then
        var s1 := Create(s, e);
        Act(s1, B.OnAttach(s1.Cur().s, e, 0, budget), Some(e), [])
      else
        s.(tunnels := s.tunnels[e := PushDown(s.tunnels[e], [Item(None, CloseDown)], false)])
    case Data(offset, p) =>
      if s.inTable then
        var b := s.Cur().s;
        Act(MarkFailure(s, WritesUpstream(b, offset, p) && !upstreamOk),
            B.OnData(b, offset, p, upstreamOk, budget), b.tconn, [])
      else s
    case Ack(offset) => if s.inTable then SetSession(s, B.OnAck(s.Cur().s, offset)) else s
    case CloseUp => if s.inTable then SetSession(s, B.OnSidecarClose(s.Cur().s)) else s
    case _ => s
  }

  // ---------------------------------------------------------------- sidecar

  function Times(n: nat, from: Option<nat>): seq<Option<nat>> { seq(n, _ => from) }

  function Dispatch(s: State, item: Item, agentOk: bool): State
    requires s.linked ==> s.tunnels != []
  {
    if s.c.dead then s
    else
      match item.msg
      case AttachOk(offset) =>
        var o := C.OnAttachOk(s.c, offset);
        SendUp(s.(c := o.c, synced := if C.Serves(s.c, offset) then item.inc else None), o.send)
      case Data(offset, p) =>
        // After CloseWrite towards the agent, a write to it fails.
        var o := C.DeliverDown(s.c, offset, p, agentOk && !s.c.downClosed);
        SendUp(s.(c := o.c, agentGot := s.agentGot + o.delivered,
                  src := s.src + Times(|o.delivered|, item.inc)), o.send)
      case Ack(offset) => s.(c := C.OnUpstreamAck(s.c, offset))
      case CloseDown => s.(c := C.OnClose(s.c, agentOk))
      case _ => s
  }

  // ---------------------------------------------------------------- steps

  predicate Bound(s: State) {
    && (s.linked ==> s.tunnels != [])
    && (s.inTable ==> s.incs != [])
    && (s.incs != [] && s.Cur().s.tconn.Some? ==> s.Cur().s.tconn.value < |s.tunnels|)
  }

  predicate Live(s: State) { s.inTable && s.incs != [] && !s.Cur().s.dead }

  predicate Enabled(s: State, a: Action) {
    Bound(s) &&
    match a
    case OpenSession => !s.started
    case AgentWrites(chunk) =>
      s.started && !s.c.dead && !s.c.upClosed && 0 < |chunk| <= CHUNK && |chunk| <= s.c.upBuf.Free()
    case AgentCloses => s.started && !s.c.upClosed
    case Connect => !s.linked
    case SendAttach => s.linked && s.attachDue
    case Disconnect => s.linked
    case ClientReads(_) => s.linked && !s.attachDue && s.Newest().down != []
    case CutUp(e, keep) => e < |s.tunnels| && keep <= |s.tunnels[e].up|
    case CutDown(e, keep) => e < |s.tunnels| && keep <= |s.tunnels[e].down|
    case BrokerReads(e, _, _) => e < |s.tunnels| && s.tunnels[e].brokerOpen && s.tunnels[e].up != []
    case BrokerDrops(e) => e < |s.tunnels| && s.tunnels[e].brokerOpen
    case DialDone(_, _) => Live(s) && !s.Cur().s.connected
    case DialFails(_) => Live(s) && !s.Cur().s.connected
    case UpstreamSends(chunk, _) =>
      Live(s) && s.Cur().s.reading && 0 < |chunk| <= CHUNK && |chunk| <= s.Cur().s.downBuf.Free()
    case UpstreamEof(_) => Live(s) && s.Cur().s.reading
    case WatchdogFires => Live(s) && s.Cur().s.watchdog
    case Remove => s.inTable && s.Cur().s.dead
  }

  function Started(s: State): State
    requires Enabled(s, OpenSession)
  {
    SendUp(s.(started := true, synced := Some(0)), [Open])
  }

  function Wrote(s: State, chunk: Bytes): State
    requires Enabled(s, AgentWrites(chunk))
  {
    var o := C.WriteUp(s.c, chunk);
    SendUp(s.(c := o.c, agentSent := s.agentSent + chunk), o.send)
  }

  function FinishedWriting(s: State): State
    requires Enabled(s, AgentCloses)
  {
    var o := C.CloseUp(s.c);
    SendUp(s.(c := o.c), o.send)
  }

  function Connected(s: State): State
    requires Enabled(s, Connect)
  {
    s.(linked := true, attachDue := s.started && !s.c.dead, synced := None,
       tunnels := s.tunnels + [Tunnel([], [], false, false, true)])
  }

  function SentAttach(s: State): State
    requires Enabled(s, SendAttach)
  {
    SendUp(s.(attachDue := false), [C.AttachFrame(s.c)])
  }

  /** The front frame of the newest tunnel has been taken off. */
  function PopDown(s: State): State
    requires s.tunnels != [] && s.Newest().down != []
  {
    s.(tunnels := s.tunnels[|s.tunnels| - 1 := s.Newest().(down := s.Newest().down[1..])])
  }

  function ClientRead(s: State, agentOk: bool): State
    requires Enabled(s, ClientReads(agentOk))
  {
    Dispatch(PopDown(s), s.Newest().down[0], agentOk)
  }

  function LostUp(s: State, e: nat, keep: nat): State
    requires Enabled(s, CutUp(e, keep))
  {
    s.(tunnels := s.tunnels[e := s.tunnels[e].(up := s.tunnels[e].up[..keep], upCut := true)])
  }

  function LostDown(s: State, e: nat, keep: nat): State
    requires Enabled(s, CutDown(e, keep))
  {
    s.(tunnels := s.tunnels[e := s.tunnels[e].(down := s.tunnels[e].down[..keep], downCut := true)])
  }

  function PopUp(s: State, e: nat): State
    requires e < |s.tunnels| && s.tunnels[e].up != []
  {
    s.(tunnels := s.tunnels[e := s.tunnels[e].(up := s.tunnels[e].up[1..])])
  }

  function BrokerRead(s: State, e: nat, upstreamOk: bool, budget: nat): State
    requires Enabled(s, BrokerReads(e, upstreamOk, budget))
  {
    Handle(PopUp(s, e), e, s.tunnels[e].up[0], upstreamOk, budget)
  }

  function ShutTunnel(s: State, e: nat): State
    requires e < |s.tunnels|
  {
    s.(tunnels := s.tunnels[e := s.tunnels[e].(brokerOpen := false)])
  }

  function Dropped(s: State, e: nat): State
    requires Enabled(s, BrokerDrops(e))
  {
    if s.incs == [] then ShutTunnel(s, e) else Act(ShutTunnel(s, e), B.Detach(s.Cur().s, e), None, [])
  }

  function Dialled(s: State, flushOk: bool, budget: nat): State
    requires Enabled(s, DialDone(flushOk, budget))
  {
    var b := s.Cur().s;
    Act(MarkFailure(s, b.preConn != [] && !flushOk), B.DialDone(b, flushOk, budget), b.tconn, [])
  }

  function DialRefused(s: State, budget: nat): State
    requires Enabled(s, DialFails(budget))
  {
    Act(s, B.DialFailed(s.Cur().s, budget), s.Cur().s.tconn, [])
  }

  function Produced(s: State, chunk: Bytes, writeOk: bool): State
    requires Enabled(s, UpstreamSends(chunk, writeOk))
  {
    Act(s, B.Produce(s.Cur().s, chunk, writeOk), s.Cur().s.tconn, chunk)
  }

  function Ended(s: State, budget: nat): State
    requires Enabled(s, UpstreamEof(budget))
  {
    Act(s, B.UpstreamEof(s.Cur().s, budget), s.Cur().s.tconn, [])
  }

  function Fired(s: State): State
    requires Enabled(s, WatchdogFires)
  {
    Act(s, B.WatchdogFires(s.Cur().s), None, [])
  }

  function Step(s: State, a: Action): State
    requires Enabled(s, a)
  {
    match a
    case OpenSession => Started(s)
    case AgentWrites(chunk) => Wrote(s, chunk)
    case AgentCloses => FinishedWriting(s)
    case Connect => Connected(s)
    case SendAttach => SentAttach(s)
    case Disconnect => s.(linked := false, attachDue := false)
    case ClientReads(agentOk) => ClientRead(s, agentOk)
    case CutUp(e, keep) => LostUp(s, e, keep)
    case CutDown(e, keep) => LostDown(s, e, keep)
    case BrokerReads(e, upstreamOk, budget) => BrokerRead(s, e, upstreamOk, budget)
    case BrokerDrops(e) => Dropped(s, e)
    case DialDone(flushOk, budget) => Dialled(s, flushOk, budget)
    case DialFails(budget) => DialRefused(s, budget)
    case UpstreamSends(chunk, writeOk) => Produced(s, chunk, writeOk)
    case UpstreamEof(budget) => Ended(s, budget)
    case WatchdogFires => Fired(s)
    case Remove => s.(inTable := false)
  }

  // ---------------------------------------------------------------- runs

  ghost predicate Legal(s: State, run: seq<Action>)
    decreases |run|
  {
    run == [] || (Enabled(s, run[0]) && Legal(Step(s, run[0]), run[1..]))
  }

  ghost function Exec(s: State, run: seq<Action>): State
    requires Legal(s, run)
    decreases |run|
  {
    if run == [] then s else Exec(Step(s, run[0]), run[1..])
  }

  lemma {:induction false} RunThen(s: State, run: seq<Action>, more: seq<Action>)
    requires Legal(s, run) && Legal(Exec(s, run), more)
    ensures Legal(s, run + more) && Exec(s, run + more) == Exec(Exec(s, run), more)
    decreases |run|
  {
    hide Step, Enabled;
    if run == [] {
      assert run + more == more;
    } else {
      assert (run + more)[0] == run[0] && (run + more)[1..] == run[1..] + more;
      RunThen(Step(s, run[0]), run[1..], more);
    }
  }

  lemma OneStep(s: State, a: Action)
    requires Enabled(s, a)
    ensures Legal(s, [a]) && Exec(s, [a]) == Step(s, a)
  {
    hide Step, Enabled;
    assert [a][1..] == [];
  }

  ghost predicate Arrives(s: State, run: seq<Action>, x: State) { Legal(s, run) && Exec(s, run) == x }

  lemma EmptyRun(s: State)
    ensures Arrives(s, [], s)
  {
  }

  lemma Extend(s: State, run: seq<Action>, x: State, a: Action)
    requires Arrives(s, run, x) && Enabled(x, a)
    ensures Arrives(s, run + [a], Step(x, a))
  {
    hide Step, Enabled;
    OneStep(x, a);
    RunThen(s, run, [a]);
  }
}
