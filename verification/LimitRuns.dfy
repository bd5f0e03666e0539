/** Runs that reach the limits of recovery: a recreated session whose bytes were trimmed for the one before
    it, more to replay than one frame takes, a stale introduction that the replay buffer refuses, and
    bytes that a reconnect leaves unacknowledged. */
module LimitRuns {
  import opened Streams
  import opened ReplayBuffers
  import opened Messages
  import opened Protocol
  import opened Safety
  import opened Delivery
  import opened DeliveryResults
  import opened Upstream
  import opened Recovery
  import opened Starving
  import opened ReplayLimit
  import opened Counterexamples
  import C = ClientSessions
  import B = BrokerSessions

  // ---------------------------------------------------------------- trimmed for an earlier incarnation

  /** A session whose agent has written one byte and received none. */
  function Wrote1(c: C.Client, linked: bool, attachDue: bool, synced: Option<nat>, tunnels: seq<Tunnel>,
                  incs: seq<Incarnation>, inTable: bool): State
  {
    State(true, [1], [], [], c, linked, attachDue, synced, tunnels, incs, inTable, 8)
  }

  /** An incarnation that has given the byte to upstream. */
  function Fed(upClosed: bool): Incarnation {
    Incarnation(B.Session(Some(0), true, true, [], Window(0, [], 8), 1, true, upClosed, false, false, true), [1], [],
                0, false)
  }

  /** The same, ended and destroyed. */
  const PAST: Incarnation :=
    Fed(true).(s := Fed(true).s.(reading := false, downClosed := true, dead := true, watchdog := false))

  /** The first tunnel, with the close that the sidecar never reads. */
  const LEFT: Tunnel := Pipe([], [Item(Some(0), CloseDown)])

  lemma FlushEffect()
    ensures B.DialDone(B.Bind(B.New(8), 0).(preConn := [1]), true, 9) ==
            B.Effect(Fed(false).s, [Ack(1)], false, [], [1])
  {
    B.TransmitFacts(Fed(false).s, [Ack(1)], 9);
  }

  lemma EndEffect()
    ensures B.UpstreamEof(Fed(true).s, 9) == B.Effect(PAST.s, [CloseDown], false, [], [])
  {
    B.TransmitFacts(Fed(true).s.(reading := false, downClosed := true), [CloseDown], 9);
  }

  function U5(): State {
    E4().(tunnels := [Pipe([], [])], incs := [Inc(B.Bind(B.New(8), 0).(preConn := [1]), [])])
  }

  lemma TrimStep5()
    ensures Enabled(E4(), BrokerReads(0, true, 9)) && BrokerRead(E4(), 0, true, 9) == U5()
  {
    Singletons(Data(0, [1]), Open);
    Nothing<byte>([]);
    Nothing<byte>([1]);
    var one: Bytes := [1];
    assert one[0..] == one;
    Nothing<Item>([]);
    Updates(E4().Newest(), Pipe([], []), FIRST);
    Updates(Pipe([], []), Pipe([], []), FIRST);
    Updates(E4().Cur(), E4().Cur(), GONE);
    Updates(E4().Cur(), U5().Cur(), GONE);
  }

  function U6(): State {
    E4().(tunnels := [Pipe([], [Item(Some(0), Ack(1))])], incs := [Fed(false)])
  }

  lemma TrimStep6()
    ensures Enabled(U5(), DialDone(true, 9)) && Protocol.Dialled(U5(), true, 9) == U6()
  {
    Nothing<byte>([]);
    Nothing<byte>([1]);
    FlushEffect();
    Tag1(0, Ack(1));
    Singletons(Item(Some(0), Ack(1)), Item(Some(0), Open));
    Updates(U5().Newest(), U6().Newest(), FIRST);
    Updates(U5().Cur(), U5().Cur(), GONE);
    Updates(U5().Cur(), U6().Cur(), GONE);
  }

  function U7(): State {
    Wrote1(C.Client(Window(1, [], 8), 0, false, false, false), true, false, Some(0), [Pipe([], [])], [Fed(false)], true)
  }

  lemma TrimStep7()
    ensures Enabled(U6(), ClientReads(true)) && ClientRead(U6(), true) == U7()
  {
    Singletons(Item(Some(0), Ack(1)), Item(Some(0), Open));
    Updates(U6().Newest(), U7().Newest(), FIRST);
  }

  function U8(): State {
    Wrote1(C.Client(Window(1, [], 8), 0, true, false, false), true, false, Some(0), [Pipe([CloseUp], [])],
           [Fed(false)], true)
  }

  lemma TrimStep8()
    ensures Enabled(U7(), AgentCloses) && FinishedWriting(U7()) == U8()
  {
    Singletons(CloseUp, Open);
    Updates(U7().Newest(), U8().Newest(), FIRST);
  }

  function U9(): State {
    Wrote1(C.Client(Window(1, [], 8), 0, true, false, false), true, false, Some(0), [Pipe([], [])], [Fed(true)], true)
  }

  lemma TrimStep9()
    ensures Enabled(U8(), BrokerReads(0, true, 9)) && BrokerRead(U8(), 0, true, 9) == U9()
  {
    Singletons(CloseUp, Open);
    Nothing<byte>([]);
    Nothing<byte>([1]);
    Updates(U8().Newest(), U9().Newest(), FIRST);
    Updates(U8().Cur(), U9().Cur(), GONE);
  }

  function U10(): State {
    Wrote1(C.Client(Window(1, [], 8), 0, true, false, false), true, false, Some(0), [LEFT], [PAST], true)
  }

  lemma TrimStep10()
    ensures Enabled(U9(), UpstreamEof(9)) && Ended(U9(), 9) == U10()
  {
    EndEffect();
    Nothing<byte>([]);
    Nothing<byte>([1]);
    Tag1(0, CloseDown);
    Singletons(Item(Some(0), CloseDown), Item(Some(0), Open));
    Updates(U9().Newest(), LEFT, FIRST);
    Updates(U9().Cur(), PAST, GONE);
  }

  function U11(): State {
    Wrote1(C.Client(Window(1, [], 8), 0, true, false, false), true, false, Some(0), [LEFT], [PAST], false)
  }

  lemma TrimStep11()
    ensures Enabled(U10(), Remove) && U10().(inTable := false) == U11()
  {
  }

  function U12(): State {
    Wrote1(C.Client(Window(1, [], 8), 0, true, false, false), false, false, Some(0), [LEFT], [PAST], false)
  }

  lemma TrimStep12()
    ensures Enabled(U11(), Disconnect) && U11().(linked := false, attachDue := false) == U12()
  {
  }

  function U13(): State {
    Wrote1(C.Client(Window(1, [], 8), 0, true, false, false), true, true, None, [LEFT, Pipe([], [])], [PAST], false)
  }

  lemma TrimStep13()
    ensures Enabled(U12(), Connect) && Connected(U12()) == U13()
  {
  }

  function U14(): State {
    Wrote1(C.Client(Window(1, [], 8), 0, true, false, false), true, false, None, [LEFT, Pipe([Attach(0)], [])], [PAST],
           false)
  }

  lemma TrimStep14()
    ensures Enabled(U13(), SendAttach) && SentAttach(U13()) == U14()
  {
    Singletons(Attach(0), Open);
    Updates(U13().Newest(), U14().Newest(), LEFT);
  }

  function U15(): State {
    Wrote1(C.Client(Window(1, [], 8), 0, true, false, false), true, false, None,
           [LEFT, Pipe([], [Item(Some(1), AttachOk(0))])], [PAST, Inc(B.Bind(B.New(8), 1), [])], true)
  }

  lemma TrimStep15()
    ensures Enabled(U14(), BrokerReads(1, true, 9)) && BrokerRead(U14(), 1, true, 9) == U15()
  {
    var b := B.Bind(B.New(8), 1);
    assert B.AttachReply(b, 0) == [AttachOk(0)];
    Singletons(AttachOk(0), Open);
    Singletons(Attach(0), Open);
    assert B.OnAttach(b, 1, 0, 9) == B.Effect(b, [AttachOk(0)], false, [], []);
    Tag1(1, AttachOk(0));
    Singletons(Item(Some(1), AttachOk(0)), Item(Some(1), Open));
    Singletons(PAST, Inc(b, []));
    Updates(U14().Newest(), Pipe([], []), LEFT);
    Updates(Pipe([], []), U15().Newest(), LEFT);
    Updates(Inc(b, []), Inc(b, []), PAST);
    Nothing<byte>([]);
  }

  lemma TrimPart2(run0: seq<Action>) returns (run: seq<Action>)
    requires Arrives(Init(8, 8), run0, E4())
    ensures Arrives(Init(8, 8), run, U10())
  {
    hide Arrives, Enabled;
    hide Started, Wrote, FinishedWriting, Connected, SentAttach, ClientRead, LostDown, BrokerRead, Produced, Ended;
    hide Protocol.Dialled;
    run := run0;
    TrimStep5();
    Extend(Init(8, 8), run, E4(), BrokerReads(0, true, 9));
    run := run + [BrokerReads(0, true, 9)];
    TrimStep6();
    Extend(Init(8, 8), run, U5(), DialDone(true, 9));
    run := run + [DialDone(true, 9)];
    TrimStep7();
    Extend(Init(8, 8), run, U6(), ClientReads(true));
    run := run + [ClientReads(true)];
    TrimStep8();
    Extend(Init(8, 8), run, U7(), AgentCloses);
    run := run + [AgentCloses];
    TrimStep9();
    Extend(Init(8, 8), run, U8(), BrokerReads(0, true, 9));
    run := run + [BrokerReads(0, true, 9)];
    TrimStep10();
    Extend(Init(8, 8), run, U9(), UpstreamEof(9));
    run := run + [UpstreamEof(9)];
  }

  lemma TrimPart3(run0: seq<Action>) returns (run: seq<Action>)
    requires Arrives(Init(8, 8), run0, U10())
    ensures Arrives(Init(8, 8), run, U15())
  {
    hide Arrives, Enabled;
    hide Started, Wrote, FinishedWriting, Connected, SentAttach, ClientRead, LostDown, BrokerRead, Produced, Ended;
    hide Protocol.Dialled;
    run := run0;
    TrimStep11();
    Extend(Init(8, 8), run, U10(), Remove);
    run := run + [Remove];
    TrimStep12();
    Extend(Init(8, 8), run, U11(), Disconnect);
    run := run + [Disconnect];
    TrimStep13();
    Extend(Init(8, 8), run, U12(), Connect);
    run := run + [Connect];
    TrimStep14();
    Extend(Init(8, 8), run, U13(), SendAttach);
    run := run + [SendAttach];
    TrimStep15();
    Extend(Init(8, 8), run, U14(), BrokerReads(1, true, 9));
    run := run + [BrokerReads(1, true, 9)];
  }

  /** A session recreated from the newest tunnel, clean in every way, of which no run ever completes the
      upstream direction: its one byte was acknowledged by the incarnation before, and trimmed. */
  lemma RecreatedSessionStarves() returns (run: seq<Action>)
    ensures Legal(Init(8, 8), run)
    ensures var s := Exec(Init(8, 8), run);
            && Alive(s) && |s.incs| == 2 && s.agentSent == [1] && s.Cur().got == [] && s.c.upBuf.base == 1
            && (forall more :: Legal(s, more) && Exec(s, more).incs != [] ==>
                Exec(s, more).Cur().got != Exec(s, more).agentSent)
  {
    EmptyRun(Init(8, 8));
    run := EarlyPart1([]);
    run := EarlyPart2(run);
    run := TrimPart2(run);
    run := TrimPart3(run);
    StarvedAtEnd(run);
    var s := Exec(Init(8, 8), run);
    forall more | Legal(s, more) && Exec(s, more).incs != []
        ensures Exec(s, more).Cur().got != Exec(s, more).agentSent {
      UpstreamStarves(s, more, 0, 0);
    }
  }

  lemma StarvedAtEnd(run: seq<Action>)
    requires Arrives(Init(8, 8), run, U15())
    ensures Starved(U15(), 0, 0) && Alive(U15())
  {
    InitFaithful(8, 8);
    RunSafe(Init(8, 8), run);
  }

  // ---------------------------------------------------------------- more than one frame

  const ROOM: nat := 10 * CHUNK

  function Zeros(n: nat): Bytes { seq(n, _ => 0) }

  /** A detached session that has read `n` full chunks. */
  function Holding(n: nat): State {
    State(true, [], [], [], C.New(8), true, false, Some(0), [Tunnel([], [], false, false, false)],
          [Incarnation(B.Session(None, true, true, [], Window(0, Zeros(n * CHUNK), ROOM), 0, false, false, false,
                                 false, true),
                       [], Zeros(n * CHUNK), 0, false)], true, ROOM)
  }

  function O1(): State { Init(8, ROOM).(linked := true, tunnels := [Pipe([], [])]) }

  function O2(): State { O1().(started := true, synced := Some(0), tunnels := [Pipe([Open], [])]) }

  function O3(): State { O2().(tunnels := [Pipe([], [])], incs := [Inc(B.Bind(B.New(ROOM), 0), [])], inTable := true) }

  function O4(): State {
    O3().(incs := [Inc(B.Bind(B.New(ROOM), 0).(connected := true, reading := true, watchdog := true), [])])
  }

  lemma OverSteps()
    ensures Enabled(Init(8, ROOM), Connect) && Connected(Init(8, ROOM)) == O1()
    ensures Enabled(O1(), OpenSession) && Started(O1()) == O2()
  {
    Singletons(Open, Open);
    Updates(Pipe([], []), Pipe([Open], []), FIRST);
  }

  lemma OverStep3()
    ensures Enabled(O2(), BrokerReads(0, true, 9)) && BrokerRead(O2(), 0, true, 9) == O3()
  {
    Singletons(Open, Open);
    Updates(O2().Newest(), O3().Newest(), FIRST);
    assert O2().incs + [Inc(B.Bind(B.New(ROOM), 0), [])] == O3().incs;
  }

  lemma OverStep4()
    ensures Enabled(O3(), DialDone(true, 9)) && Protocol.Dialled(O3(), true, 9) == O4()
  {
    Nothing<byte>([]);
    Nothing<Item>([]);
    Updates(O3().Cur(), O3().Cur(), GONE);
    Updates(O3().Cur(), O4().Cur(), GONE);
    Updates(O3().Newest(), O3().Newest(), FIRST);
  }

  lemma OverStep5()
    ensures Enabled(O4(), BrokerDrops(0)) && Dropped(O4(), 0) == Holding(0)
  {
    Nothing<byte>([]);
    assert Zeros(0) == [];
    Updates(O4().Newest(), Holding(0).Newest(), FIRST);
    Updates(O4().Cur(), Holding(0).Cur(), GONE);
  }

  lemma OverSend(n: nat)
    requires n < 9
    ensures Enabled(Holding(n), UpstreamSends(Zeros(CHUNK), true))
    ensures Produced(Holding(n), Zeros(CHUNK), true) == Holding(n + 1)
  {
    assert Zeros(n * CHUNK) + Zeros(CHUNK) == Zeros((n + 1) * CHUNK);
    Nothing<byte>([]);
    Updates(Holding(n).Cur(), Holding(n + 1).Cur(), GONE);
  }

  lemma {:induction false} OverSends(run0: seq<Action>, n: nat) returns (run: seq<Action>)
    requires Arrives(Init(8, ROOM), run0, Holding(0)) && n <= 9
    ensures Arrives(Init(8, ROOM), run, Holding(n))
    decreases n
  {
    hide Arrives, Enabled, Produced, Holding;
    run := run0;
    if n > 0 {
      run := OverSends(run0, n - 1);
      OverSend(n - 1);
      Extend(Init(8, ROOM), run, Holding(n - 1), UpstreamSends(Zeros(CHUNK), true));
      run := run + [UpstreamSends(Zeros(CHUNK), true)];
    }
  }

  lemma OverPart(run0: seq<Action>) returns (run: seq<Action>)
    requires Arrives(Init(8, ROOM), run0, Init(8, ROOM))
    ensures Arrives(Init(8, ROOM), run, Holding(0))
  {
    hide Arrives, Enabled;
    hide Started, Connected, BrokerRead, Dropped, Protocol.Dialled, Holding;
    OverSteps();
    OverStep3();
    OverStep4();
    OverStep5();
    Extend(Init(8, ROOM), run0, Init(8, ROOM), Connect);
    Extend(Init(8, ROOM), run0 + [Connect], O1(), OpenSession);
    Extend(Init(8, ROOM), run0 + [Connect] + [OpenSession], O2(), BrokerReads(0, true, 9));
    Extend(Init(8, ROOM), run0 + [Connect] + [OpenSession] + [BrokerReads(0, true, 9)], O3(), DialDone(true, 9));
    Extend(Init(8, ROOM), run0 + [Connect] + [OpenSession] + [BrokerReads(0, true, 9)] + [DialDone(true, 9)], O4(),
           BrokerDrops(0));
    run := run0 + [Connect] + [OpenSession] + [BrokerReads(0, true, 9)] + [DialDone(true, 9)] + [BrokerDrops(0)];
  }

  /** Nine full reads while the actor is suspended: the session is alive, and no run ever delivers what it
      holds to the agent. */
  lemma NineReadsStrandAgent() returns (run: seq<Action>)
    ensures Legal(Init(8, ROOM), run)
    ensures var s := Exec(Init(8, ROOM), run);
            && Alive(s) && s.agentGot == [] && |s.Cur().sent| == 9 * CHUNK
            && (forall more :: Legal(s, more) ==> Exec(s, more).agentGot != s.Cur().sent)
  {
    EmptyRun(Init(8, ROOM));
    run := OverPart([]);
    run := OverSends(run, 9);
    var s := Exec(Init(8, ROOM), run);
    assert Reachable(s, 8, ROOM, run);
    DeliveredIffFits(s, 8, ROOM, run);
  }

  // ---------------------------------------------------------------- a stale introduction, a lost ACK

  lemma AckPart(run0: seq<Action>) returns (run: seq<Action>)
    requires Arrives(Init(8, 8), run0, M9())
    ensures Arrives(Init(8, 8), run, M10())
  {
    hide Arrives, Enabled;
    hide Started, Wrote, FinishedWriting, Connected, SentAttach, ClientRead, LostDown, BrokerRead, Produced, Ended;
    hide Protocol.Dialled;
    run := run0;
    MixStep10();
    Extend(Init(8, 8), run, M9(), ClientReads(true));
    run := run + [ClientReads(true)];
  }

  lemma TrimmedPart(run0: seq<Action>) returns (run: seq<Action>)
    requires Arrives(Init(8, 8), run0, M10())
    ensures Arrives(Init(8, 8), run, M12())
  {
    hide Arrives, Enabled;
    hide Started, Wrote, FinishedWriting, Connected, SentAttach, ClientRead, LostDown, BrokerRead, Produced, Ended;
    hide Protocol.Dialled;
    run := run0;
    MixStep11();
    Extend(Init(8, 8), run, M10(), AgentCloses);
    run := run + [AgentCloses];
    MixStep12();
    Extend(Init(8, 8), run, M11(), BrokerReads(1, true, 9));
    run := run + [BrokerReads(1, true, 9)];
  }

  /** An OPEN left over on the first tunnel attaches at 0, which the replay buffer refuses: the byte was
      acknowledged since. */
  lemma StaleOpenIsRefused() returns (run: seq<Action>)
    ensures Legal(Init(8, 8), run)
    ensures var s := Exec(Init(8, 8), run);
            && s.inTable && s.incs != [] && |s.tunnels| == 2 && s.tunnels[0].brokerOpen && s.tunnels[0].up == [Open]
            && s.Cur().s.downBuf.base == 1 && !s.Cur().s.downBuf.Has(0) && B.AttachReply(s.Cur().s, 0) == [AttachOk(0)]
  {
    EmptyRun(Init(8, 8));
    run := MixPart1([]);
    run := AckPart(run);
    run := TrimmedPart(run);
    assert B.AttachReply(M12().Cur().s, 0) == [AttachOk(0)];
  }

  /** The agent has everything but its acknowledgement is not read: after a whole reconnect the broker still
      holds the byte. */
  lemma LostAckKeepsBytes() returns (run: seq<Action>)
    ensures Legal(Init(8, 8), run)
    ensures var s := Exec(Init(8, 8), run);
            && |s.incs| == 1 && s.agentGot == s.Cur().sent == [65] && s.Cur().got == s.agentSent
            && s.Cur().s.downBuf.bytes != []
  {
    hide Recoverable, Recovered;
    EmptyRun(Init(8, 8));
    run := MixPart1([]);
    run := AckPart(run);
    AckedRecoverable(run);
    var more := ReconnectRecovers(M10());
    KeepsBytes(Exec(M10(), more));
    RunThen(Init(8, 8), run, more);
    run := run + more;
  }

  lemma AckedRecoverable(run: seq<Action>)
    requires Arrives(Init(8, 8), run, M10())
    ensures Recoverable(M10())
  {
    hide Faithful;
    InitFaithful(8, 8);
    RunFaithful(Init(8, 8), run);
  }

  lemma KeepsBytes(s: State)
    requires Recovered(M10(), s)
    ensures |s.incs| == 1 && s.agentGot == s.Cur().sent == [65] && s.Cur().got == s.agentSent
            && s.Cur().s.downBuf.bytes != []
  {
  }

  // ---------------------------------------------------------------- DATA beyond the mark

  function G7(): State {
    State(true, [1, 2], [], [], C.Client(Window(0, [1, 2], 8), 0, false, false, false), true, false, None,
          [Pipe([Data(1, [2])], [Item(Some(0), CloseDown)])], E6().incs, true, 8)
  }

  lemma GapStep7()
    ensures Enabled(E6(), AgentWrites([2])) && Wrote(E6(), [2]) == G7()
  {
    var one, two: Bytes := [1], [2];
    assert one + two == [1, 2];
    Singletons(Data(1, [2]), Open);
    Updates(E6().Newest(), G7().Newest(), FIRST);
  }

  lemma GapPart(run0: seq<Action>) returns (run: seq<Action>)
    requires Arrives(Init(8, 8), run0, E6())
    ensures Arrives(Init(8, 8), run, G7())
  {
    hide Arrives, Enabled;
    hide Started, Wrote, FinishedWriting, Connected, SentAttach, ClientRead, LostUp, LostDown, BrokerRead, Produced;
    hide Ended, Protocol.Dialled;
    run := run0;
    GapStep7();
    Extend(Init(8, 8), run, E6(), AgentWrites([2]));
    run := run + [AgentWrites([2])];
  }

  /** After a failed write the next DATA frame is beyond the broker's mark, on a tunnel that has lost nothing;
      and a reconnect, which replays from the mark, completes both directions. */
  lemma FailedWriteLeavesGap() returns (run: seq<Action>, more: seq<Action>)
    ensures Legal(Init(8, 8), run)
    ensures var s := Exec(Init(8, 8), run);
            && Alive(s) && s.Cur().s.connected && |s.tunnels| == 1
            && s.Newest().up == [Data(1, [2])] && MarkOf(s) == 0
            && s.linked && !s.Newest().upCut && !s.Newest().downCut && s.Newest().brokerOpen
            && Misses(s.Newest().up, MarkOf(s))
            && Legal(s, more) && Complete(s, Exec(s, more))
  {
    EmptyRun(Init(8, 8));
    run := EarlyPart1([]);
    run := EarlyPart2(run);
    run := EarlyPart3(run);
    run := GapPart(run);
    assert Reachable(G7(), 8, 8, run);
    more := EveryLiveSessionRecovers(G7(), 8, 8, run);
  }

  function H4(): State { E3().(tunnels := [Tunnel([], [], true, false, true)]) }

  function H5(): State { H4().(linked := false) }

  function H6(): State { H4().(attachDue := true, synced := None, tunnels := H4().tunnels + [Pipe([], [])]) }

  function H7(): State { H6().(attachDue := false, tunnels := H4().tunnels + [Pipe([Attach(0)], [])]) }

  function H8(): State {
    H7().(agentSent := [1, 2], c := G7().c, tunnels := H4().tunnels + [Pipe([Attach(0), Data(1, [2])], [])])
  }

  lemma AheadStep4()
    ensures Enabled(E3(), CutUp(0, 0)) && LostUp(E3(), 0, 0) == H4()
    ensures Enabled(H4(), Disconnect) && H4().(linked := false, attachDue := false) == H5()
  {
    Updates(E3().Newest(), H4().Newest(), FIRST);
  }

  lemma AheadStep6()
    ensures Enabled(H5(), Connect) && Connected(H5()) == H6()
    ensures Enabled(H6(), SendAttach) && SentAttach(H6()) == H7()
  {
    Singletons(Attach(0), Open);
    Updates(H6().Newest(), H7().Newest(), H4().Newest());
  }

  lemma AheadStep8()
    ensures Enabled(H7(), AgentWrites([2])) && Wrote(H7(), [2]) == H8()
  {
    var one, two: Bytes := [1], [2];
    assert one + two == [1, 2];
    Singletons(Attach(0), Data(1, [2]));
    Updates(H7().Newest(), H8().Newest(), H4().Newest());
  }

  function H9(): State {
    H8().(tunnels := H4().tunnels + [Pipe([Data(1, [2])], [Item(Some(0), AttachOk(0))])],
          incs := [Inc(B.Bind(B.New(8), 1), [])], inTable := true)
  }

  lemma AheadStep9()
    ensures Enabled(H8(), BrokerReads(1, true, 9)) && BrokerRead(H8(), 1, true, 9) == H9()
  {
    var b := B.Bind(B.New(8), 1);
    assert B.AttachReply(b, 0) == [AttachOk(0)];
    Singletons(AttachOk(0), Open);
    Singletons(Attach(0), Data(1, [2]));
    assert B.OnAttach(b, 1, 0, 9) == B.Effect(b, [AttachOk(0)], false, [], []);
    Tag1(0, AttachOk(0));
    Singletons(Item(Some(0), AttachOk(0)), Item(Some(0), Open));
    Nothing([Inc(b, [])]);
    Updates(H8().Newest(), Pipe([Data(1, [2])], []), H4().Newest());
    Updates(Pipe([Data(1, [2])], []), H9().Newest(), H4().Newest());
    Updates(Inc(b, []), Inc(b, []), GONE);
    Nothing<byte>([]);
  }

  lemma AheadPart(run0: seq<Action>) returns (run: seq<Action>)
    requires Arrives(Init(8, 8), run0, E3())
    ensures Arrives(Init(8, 8), run, H9())
  {
    hide Arrives, Enabled;
    hide Wrote, Connected, SentAttach, LostUp, BrokerRead;
    AheadStep4();
    AheadStep6();
    AheadStep8();
    AheadStep9();
    run := run0;
    Extend(Init(8, 8), run, E3(), CutUp(0, 0));
    run := run + [CutUp(0, 0)];
    Extend(Init(8, 8), run, H4(), Disconnect);
    run := run + [Disconnect];
    Extend(Init(8, 8), run, H5(), Connect);
    run := run + [Connect];
    Extend(Init(8, 8), run, H6(), SendAttach);
    run := run + [SendAttach];
    Extend(Init(8, 8), run, H7(), AgentWrites([2]));
    run := run + [AgentWrites([2])];    Extend(Init(8, 8), run, H8(), BrokerReads(1, true, 9));
    run := run + [BrokerReads(1, true, 9)];
  }

  /** A DATA frame beyond the mark without any failed write: the agent writes between the ATTACH and its
      answer, after earlier bytes were lost with the tunnel before. */
  lemma WriteBeforeAttachOkLeavesGap() returns (run: seq<Action>, more: seq<Action>)
    ensures Legal(Init(8, 8), run)
    ensures var s := Exec(Init(8, 8), run);
            && Alive(s) && !s.Cur().s.downClosed && |s.tunnels| == 2
            && s.Newest().up == [Data(1, [2])] && MarkOf(s) == 0
            && s.linked && !s.Newest().upCut && !s.Newest().downCut && s.Newest().brokerOpen
            && Misses(s.Newest().up, MarkOf(s))
            && Legal(s, more) && Complete(s, Exec(s, more))
  {
    EmptyRun(Init(8, 8));
    run := EarlyPart1([]);
    run := AheadPart(run);
    assert Reachable(H9(), 8, 8, run);
    more := EveryLiveSessionRecovers(H9(), 8, 8, run);
  }
}
