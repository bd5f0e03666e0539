/** Two runs that show why the conditions on delivery are needed: a session recreated from a stale
    frame, and a close that comes from a failed write. */
module Counterexamples {
  import opened Streams
  import opened ReplayBuffers
  import opened Messages
  import opened Protocol
  import C = ClientSessions
  import B = BrokerSessions

  function Sidecar(delivered: nat, upClosed: bool): C.Client {
    C.Client(Window(0, [], 8), delivered, upClosed, false, false)
  }

  /** A dialled session to which the agent has sent nothing. */
  function Open0(tc: nat, base: nat, bytes: Bytes, upClosed: bool): B.Session {
    B.Session(Some(tc), true, true, [], Window(base, bytes, 8), 0, false, upClosed, false, false, true)
  }

  function Pipe(up: seq<Msg>, down: seq<Item>): Tunnel { Tunnel(up, down, false, false, true) }

  function Inc(s: B.Session, sent: Bytes): Incarnation { Incarnation(s, [], sent, 0, false) }

  /** A started session whose agent sends nothing. */
  function At(agentGot: Bytes, src: seq<Option<nat>>, c: C.Client, linked: bool, attachDue: bool, synced: Option<nat>,
              tunnels: seq<Tunnel>, incs: seq<Incarnation>, inTable: bool): State
  {
    State(true, [], agentGot, src, c, linked, attachDue, synced, tunnels, incs, inTable, 8)
  }

  /** Sequence identities that the steps below need. */
  lemma Singletons<T>(a: T, b: T)
    ensures [] + [a] == [a] && [a] + [b] == [a, b] && [a][1..] == [] && [a, b][1..] == [b]
  {
  }

  lemma Updates<T>(a: T, b: T, c: T)
    ensures [a][0 := b] == [b] && [c, a][1 := b] == [c, b] && [a, c][0 := b] == [b, c]
  {
  }

  lemma Nothing<T>(x: seq<T>)
    ensures x + [] == x && [] + x == x
  {
  }

  lemma Tag1(inc: nat, m: Msg)
    ensures Tag(inc, [m]) == [Item(Some(inc), m)]
  {
  }

  // ---------------------------------------------------------------- a session recreated by a stale OPEN

  /** The first tunnel carries the OPEN, which the broker reads only much later. */
  const FIRST: Tunnel := Pipe([Open], [])

  /** The first incarnation, drained, closed on both sides and destroyed. */
  const GONE: Incarnation :=
    Incarnation(Open0(1, 1, [], true).(reading := false, downClosed := true, dead := true, watchdog := false), [],
       [65], 1, false)

  const STALE: Tunnel := Pipe([], [Item(Some(1), Data(0, [66, 67]))])

  /** ATTACH at 1 on a new tunnel: the second incarnation replays its second byte. */
  lemma ReplayTail()
    ensures B.OnAttach(Open0(0, 0, [66, 67], false), 2, 1, 9) ==
            B.Effect(Open0(2, 0, [66, 67], false), [AttachOk(0), Data(1, [67])], false, [], [])
  {
  }

  function M1(): State {
    Init(8, 8).(linked := true, tunnels := [Pipe([], [])])
  }

  lemma MixStep1()
    ensures Enabled(Init(8, 8), Connect) && Connected(Init(8, 8)) == M1()
  {
  }

  function M2(): State {
    At([], [], Sidecar(0, false), true, false, Some(0), [FIRST], [], false)
  }

  lemma MixStep2()
    ensures Enabled(M1(), OpenSession) && Started(M1()) == M2()
  {
    Singletons(Open, Open);
  }

  function M3(): State {
    At([], [], Sidecar(0, false), false, false, Some(0), [FIRST], [], false)
  }

  lemma MixStep3()
    ensures Enabled(M2(), Disconnect) && M2().(linked := false, attachDue := false) == M3()
  {
  }

  function M4(): State {
    At([], [], Sidecar(0, false), true, true, None, [FIRST, Pipe([], [])], [], false)
  }

  lemma MixStep4()
    ensures Enabled(M3(), Connect) && Connected(M3()) == M4()
  {
  }

  function M5(): State {
    At([], [], Sidecar(0, false), true, false, None, [FIRST, Pipe([Attach(0)], [])], [], false)
  }

  lemma MixStep5()
    ensures Enabled(M4(), SendAttach) && SentAttach(M4()) == M5()
  {
    Singletons(Attach(0), Open);
  }

  function M6(): State {
    At([], [], Sidecar(0, false), true, false, None, [FIRST, Pipe([], [Item(Some(0), AttachOk(0))])],
       [Inc(B.Bind(B.New(8), 1), [])], true)
  }

  lemma MixStep6()
    ensures Enabled(M5(), BrokerReads(1, true, 9)) && BrokerRead(M5(), 1, true, 9) == M6()
  {
    var b := B.Bind(B.New(8), 1);
    assert B.AttachReply(b, 0) == [AttachOk(0)];
    Singletons(AttachOk(0), Open);
    Singletons(Attach(0), Open);
    assert B.OnAttach(b, 1, 0, 9) == B.Effect(b, [AttachOk(0)], false, [], []);
    Tag1(0, AttachOk(0));
    Singletons(Item(Some(0), AttachOk(0)), Item(Some(0), Open));
    assert PopUp(M5(), 1).tunnels == [FIRST, Pipe([], [])];
    Updates(Inc(b, []), Inc(b, []), Inc(b, []));
    Updates(Pipe([], []), Pipe([], [Item(Some(0), AttachOk(0))]), FIRST);
    Nothing<byte>([]);
  }

  function M7(): State {
    M6().(incs := [Inc(Open0(1, 0, [], false), [])])
  }

  lemma MixStep7()
    ensures Enabled(M6(), DialDone(true, 9)) && Protocol.Dialled(M6(), true, 9) == M7()
  {
    Nothing<byte>([]);
    Nothing(M6().Newest().down);
    assert M6().tunnels[1 := M6().Newest()] == M6().tunnels;
    Updates(M6().Cur(), Inc(Open0(1, 0, [], false), []), M6().Cur());
    assert MarkFailure(M6(), false) == M6();
  }

  function M8(): State {
    At([], [], Sidecar(0, false), true, false, None, [FIRST, Pipe([], [Item(Some(0), AttachOk(0)), Item(Some(0), Data(0,
       [65]))])], [Inc(Open0(1, 0, [65], false), [65])], true)
  }

  lemma MixStep8()
    ensures Enabled(M7(), UpstreamSends([65], true)) && Produced(M7(), [65], true) == M8()
  {
    var byte: Bytes := [65];
    Nothing(byte);
    Nothing<byte>([]);
    Updates(M7().Cur(), Inc(Open0(1, 0, byte, false), byte), M7().Cur());
    Updates(M7().Newest(), M8().Newest(), FIRST);
    Tag1(0, Data(0, byte));
    Singletons(Item(Some(0), AttachOk(0)), Item(Some(0), Data(0, byte)));
  }

  function M9(): State {
    At([], [], Sidecar(0, false), true, false, Some(0), [FIRST, Pipe([], [Item(Some(0), Data(0, [65]))])],
       [Inc(Open0(1, 0,
       [65], false), [65])], true)
  }

  lemma MixStep9()
    ensures Enabled(M8(), ClientReads(true)) && ClientRead(M8(), true) == M9()
  {
    Singletons(Item(Some(0), AttachOk(0)), Item(Some(0), Data(0, [65])));
  }

  function M10(): State {
    At([65], [Some(0)], Sidecar(1, false), true, false, Some(0), [FIRST, Pipe([Ack(1)], [])],
       [Inc(Open0(1, 0, [65], false),
       [65])], true)
  }

  lemma MixStep10()
    ensures Enabled(M9(), ClientReads(true)) && ClientRead(M9(), true) == M10()
  {
    Singletons(Item(Some(0), Data(0, [65])), Item(Some(0), Open));
    Singletons(Ack(1), Open);
    var byte: Bytes := [65];
    assert [] + byte == byte && byte[0..] == byte;
    assert [] + Times(1, Some(0)) == [Some(0)];
  }

  function M11(): State {
    At([65], [Some(0)], Sidecar(1, true), true, false, Some(0), [FIRST, Pipe([Ack(1), CloseUp], [])],
       [Inc(Open0(1, 0, [65],
       false), [65])], true)
  }

  lemma MixStep11()
    ensures Enabled(M10(), AgentCloses) && FinishedWriting(M10()) == M11()
  {
    Singletons(Ack(1), CloseUp);
  }

  function M12(): State {
    At([65], [Some(0)], Sidecar(1, true), true, false, Some(0), [FIRST, Pipe([CloseUp], [])],
       [Inc(Open0(1, 1, [], false),
       [65])], true)
  }

  lemma MixStep12()
    ensures Enabled(M11(), BrokerReads(1, true, 9)) && BrokerRead(M11(), 1, true, 9) == M12()
  {
    Singletons(Ack(1), CloseUp);
    Nothing<byte>([]);
    Nothing<byte>([65]);
    Updates(M11().Cur(), M12().Cur(), GONE);
    Updates(M11().Newest(), M12().Newest(), FIRST);
  }

  function M13(): State {
    At([65], [Some(0)], Sidecar(1, true), true, false, Some(0), [FIRST, Pipe([], [])],
       [Inc(Open0(1, 1, [], true), [65])],
       true)
  }

  lemma MixStep13()
    ensures Enabled(M12(), BrokerReads(1, true, 9)) && BrokerRead(M12(), 1, true, 9) == M13()
  {
    Singletons(CloseUp, Open);
    Nothing<byte>([]);
    Nothing<byte>([65]);
    Updates(M12().Cur(), M13().Cur(), GONE);
    Updates(M12().Newest(), M13().Newest(), FIRST);
  }

  function M14(): State {
    At([65], [Some(0)], Sidecar(1, true), true, false, Some(0), [FIRST, Tunnel([], [], false, true, true)],
       [Inc(Open0(1, 1,
       [], true), [65])], true)
  }

  lemma MixStep14()
    ensures Enabled(M13(), CutDown(1, 0)) && LostDown(M13(), 1, 0) == M14()
  {
  }

  function M15(): State {
    At([65], [Some(0)], Sidecar(1, true), true, false, Some(0), [FIRST, Tunnel([], [], false, true, true)], [GONE],
       true)
  }

  lemma MixStep15()
    ensures Enabled(M14(), UpstreamEof(9)) && Ended(M14(), 9) == M15()
  {
    var b := Open0(1, 1, [], true).(reading := false, downClosed := true);
    Singletons(CloseDown, Open);
    assert B.Transmit(b, [CloseDown], 9) == B.Effect(b, [CloseDown], false, [], []);
    Nothing<byte>([]);
    Nothing<byte>([65]);
    Updates(M14().Cur(), GONE, GONE);
    Updates(M14().Newest(), M14().Newest(), FIRST);
  }

  function M16(): State {
    M15().(inTable := false)
  }

  lemma MixStep16()
    ensures Enabled(M15(), Remove) && M15().(inTable := false) == M16()
  {
  }

  function M17(): State {
    At([65], [Some(0)], Sidecar(1, true), true, false, Some(0), [Pipe([], []), Tunnel([], [], false, true, true)],
       [GONE,
       Inc(B.Bind(B.New(8), 0), [])], true)
  }

  lemma MixStep17()
    ensures Enabled(M16(), BrokerReads(0, true, 9)) && BrokerRead(M16(), 0, true, 9) == M17()
  {
    Singletons(Open, Open);
  }

  function M18(): State {
    M17().(incs := [GONE, Inc(Open0(0, 0, [], false), [])])
  }

  lemma MixStep18()
    ensures Enabled(M17(), DialDone(true, 9)) && Protocol.Dialled(M17(), true, 9) == M18()
  {
    Nothing<byte>([]);
    Nothing<Item>([]);
    Updates(M17().Cur(), M17().Cur(), GONE);
    Updates(M17().Cur(), M18().Cur(), GONE);
    Updates(M17().tunnels[0], M17().tunnels[0], M17().tunnels[1]);
  }

  function M19(): State {
    At([65], [Some(0)], Sidecar(1, true), true, false, Some(0),
       [Pipe([], [Item(Some(1), Data(0, [66, 67]))]), Tunnel([], [], false,
       true, true)], [GONE, Inc(Open0(0, 0, [66, 67], false), [66, 67])], true)
  }

  lemma MixStep19()
    ensures Enabled(M18(), UpstreamSends([66, 67], true)) && Produced(M18(), [66, 67], true) == M19()
  {
    var bytes: Bytes := [66, 67];
    Nothing(bytes);
    Nothing<byte>([]);
    Updates(M18().Cur(), M19().Cur(), GONE);
    Updates(M18().tunnels[0], STALE, M18().tunnels[1]);
    Tag1(1, Data(0, bytes));
    Singletons(Item(Some(1), Data(0, bytes)), Item(Some(1), Open));
  }

  function M20(): State {
    M19().(linked := false)
  }

  lemma MixStep20()
    ensures Enabled(M19(), Disconnect) && M19().(linked := false, attachDue := false) == M20()
  {
  }

  function M21(): State {
    At([65], [Some(0)], Sidecar(1, true), true, true, None, [STALE, Tunnel([], [], false, true, true), Pipe([], [])],
       [GONE, Inc(Open0(0, 0, [66, 67], false), [66, 67])], true)
  }

  lemma MixStep21()
    ensures Enabled(M20(), Connect) && Connected(M20()) == M21()
  {
  }

  function M22(): State {
    At([65], [Some(0)], Sidecar(1, true), true, false, None,
       [STALE, Tunnel([], [], false, true, true), Pipe([Attach(1)],
       [])], [GONE, Inc(Open0(0, 0, [66, 67], false), [66, 67])], true)
  }

  lemma MixStep22()
    ensures Enabled(M21(), SendAttach) && SentAttach(M21()) == M22()
  {
    Singletons(Attach(1), Open);
  }

  function M23(): State {
    At([65], [Some(0)], Sidecar(1, true), true, false, None,
       [STALE, Tunnel([], [], false, true, true), Pipe([], [Item(Some(1),
       AttachOk(0)), Item(Some(1), Data(1, [67]))])], [GONE, Inc(Open0(2, 0, [66, 67], false), [66, 67])], true)
  }

  lemma MixStep23()
    ensures Enabled(M22(), BrokerReads(2, true, 9)) && BrokerRead(M22(), 2, true, 9) == M23()
  {
    ReplayTail();
    assert Tag(1, [AttachOk(0), Data(1, [67])]) == [Item(Some(1), AttachOk(0)), Item(Some(1), Data(1, [67]))];
    Singletons(Attach(1), Open);
    Nothing(M23().Newest().down);
    Nothing<byte>([66, 67]);
    Nothing<byte>([]);
    Updates(M22().Cur(), M23().Cur(), GONE);
    assert PopUp(M22(), 2).tunnels == [STALE, Tunnel([], [], false, true, true), Pipe([], [])];
    assert PopUp(M22(), 2).tunnels[2 := M23().Newest()] == M23().tunnels;
  }

  function M24(): State {
    At([65], [Some(0)], Sidecar(1, true), true, false, Some(1),
       [STALE, Tunnel([], [], false, true, true), Pipe([], [Item(Some(1),
       Data(1, [67]))])], [GONE, Inc(Open0(2, 0, [66, 67], false), [66, 67])], true)
  }

  lemma MixStep24()
    ensures Enabled(M23(), ClientReads(true)) && ClientRead(M23(), true) == M24()
  {
    Singletons(Item(Some(1), AttachOk(0)), Item(Some(1), Data(1, [67])));
  }

  function M25(): State {
    At([65, 67], [Some(0), Some(1)], Sidecar(2, true), true, false, Some(1), [STALE, Tunnel([], [], false, true, true),
       Pipe([Ack(2)], [])], [GONE, Inc(Open0(2, 0, [66, 67], false), [66, 67])], true)
  }

  lemma MixStep25()
    ensures Enabled(M24(), ClientReads(true)) && ClientRead(M24(), true) == M25()
  {
    Singletons(Item(Some(1), Data(1, [67])), Item(Some(1), Open));
    Singletons(Ack(2), Open);
    var byte: Bytes := [67];
    assert byte[0..] == byte;
    assert [65] + byte == [65, 67];
    assert [Some(0)] + Times(1, Some(1)) == [Some(0), Some(1)];
  }

  lemma MixPart1(run0: seq<Action>) returns (run: seq<Action>)
    requires Arrives(Init(8, 8), run0, Init(8, 8))
    ensures Arrives(Init(8, 8), run, M9())
  {
    hide Arrives, Enabled;
    hide Started, Wrote, FinishedWriting, Connected, SentAttach, ClientRead, LostDown, BrokerRead, Produced, Ended;
    hide Protocol.Dialled;
    run := run0;
    MixStep1();
    Extend(Init(8, 8), run, Init(8, 8), Connect);
    run := run + [Connect];
    MixStep2();
    Extend(Init(8, 8), run, M1(), OpenSession);
    run := run + [OpenSession];
    MixStep3();
    Extend(Init(8, 8), run, M2(), Disconnect);
    run := run + [Disconnect];
    MixStep4();
    Extend(Init(8, 8), run, M3(), Connect);
    run := run + [Connect];
    MixStep5();
    Extend(Init(8, 8), run, M4(), SendAttach);
    run := run + [SendAttach];
    MixStep6();
    Extend(Init(8, 8), run, M5(), BrokerReads(1, true, 9));
    run := run + [BrokerReads(1, true, 9)];
    MixStep7();
    Extend(Init(8, 8), run, M6(), DialDone(true, 9));
    run := run + [DialDone(true, 9)];
    MixStep8();
    Extend(Init(8, 8), run, M7(), UpstreamSends([65], true));
    run := run + [UpstreamSends([65], true)];
    MixStep9();
    Extend(Init(8, 8), run, M8(), ClientReads(true));
    run := run + [ClientReads(true)];
  }

  lemma MixPart2(run0: seq<Action>) returns (run: seq<Action>)
    requires Arrives(Init(8, 8), run0, M9())
    ensures Arrives(Init(8, 8), run, M17())
  {
    hide Arrives, Enabled;
    hide Started, Wrote, FinishedWriting, Connected, SentAttach, ClientRead, LostDown, BrokerRead, Produced, Ended;
    hide Protocol.Dialled;
    run := run0;
    MixStep10();
    Extend(Init(8, 8), run, M9(), ClientReads(true));
    run := run + [ClientReads(true)];
    MixStep11();
    Extend(Init(8, 8), run, M10(), AgentCloses);
    run := run + [AgentCloses];
    MixStep12();
    Extend(Init(8, 8), run, M11(), BrokerReads(1, true, 9));
    run := run + [BrokerReads(1, true, 9)];
    MixStep13();
    Extend(Init(8, 8), run, M12(), BrokerReads(1, true, 9));
    run := run + [BrokerReads(1, true, 9)];
    MixStep14();
    Extend(Init(8, 8), run, M13(), CutDown(1, 0));
    run := run + [CutDown(1, 0)];
    MixStep15();
    Extend(Init(8, 8), run, M14(), UpstreamEof(9));
    run := run + [UpstreamEof(9)];
    MixStep16();
    Extend(Init(8, 8), run, M15(), Remove);
    run := run + [Remove];
    MixStep17();
    Extend(Init(8, 8), run, M16(), BrokerReads(0, true, 9));
    run := run + [BrokerReads(0, true, 9)];
  }

  lemma MixPart3(run0: seq<Action>) returns (run: seq<Action>)
    requires Arrives(Init(8, 8), run0, M17())
    ensures Arrives(Init(8, 8), run, M25())
  {
    hide Arrives, Enabled;
    hide Started, Wrote, FinishedWriting, Connected, SentAttach, ClientRead, LostDown, BrokerRead, Produced, Ended;
    hide Protocol.Dialled;
    run := run0;
    MixStep18();
    Extend(Init(8, 8), run, M17(), DialDone(true, 9));
    run := run + [DialDone(true, 9)];
    MixStep19();
    Extend(Init(8, 8), run, M18(), UpstreamSends([66, 67], true));
    run := run + [UpstreamSends([66, 67], true)];
    MixStep20();
    Extend(Init(8, 8), run, M19(), Disconnect);
    run := run + [Disconnect];
    MixStep21();
    Extend(Init(8, 8), run, M20(), Connect);
    run := run + [Connect];
    MixStep22();
    Extend(Init(8, 8), run, M21(), SendAttach);
    run := run + [SendAttach];
    MixStep23();
    Extend(Init(8, 8), run, M22(), BrokerReads(2, true, 9));
    run := run + [BrokerReads(2, true, 9)];
    MixStep24();
    Extend(Init(8, 8), run, M23(), ClientReads(true));
    run := run + [ClientReads(true)];
    MixStep25();
    Extend(Init(8, 8), run, M24(), ClientReads(true));
    run := run + [ClientReads(true)];
  }

  /** Where a session is recreated although the one before it has read from upstream, the agent's stream
      can mix two incarnations: here it reads the first byte of one upstream connection followed by the
      second byte of another. */
  lemma StaleOpenMixesIncarnations() returns (run: seq<Action>)
    ensures Legal(Init(8, 8), run)
    ensures var s := Exec(Init(8, 8), run);
            && s.agentGot == [65, 67] && s.src == [Some(0), Some(1)]
            && |s.incs| == 2 && s.incs[0].sent == [65] && s.incs[1].sent == [66, 67]
  {
    EmptyRun(Init(8, 8));
    run := MixPart1([]);
    run := MixPart2(run);
    run := MixPart3(run);
  }

  // ---------------------------------------------------------------- a close caused by a failed write

  function Writer(downClosed: bool, dead: bool): C.Client { C.Client(Window(0, [1], 8), 0, false, downClosed, dead) }

  /** A session whose first write to upstream failed while the upstream still sends. */
  function Failed(bytes: Bytes): B.Session { Open0(0, 0, bytes, false).(downClosed := true) }

  function E1(): State {
    Init(8, 8).(linked := true, tunnels := [Pipe([], [])])
  }

  lemma EarlyStep1()
    ensures Enabled(Init(8, 8), Connect) && Connected(Init(8, 8)) == E1()
  {
  }

  function E2(): State {
    E1().(started := true, synced := Some(0), tunnels := [Pipe([Open], [])])
  }

  lemma EarlyStep2()
    ensures Enabled(E1(), OpenSession) && Started(E1()) == E2()
  {
    Singletons(Open, Open);
  }

  function E3(): State {
    State(true, [1], [], [], Writer(false, false), true, false, Some(0), [Pipe([Open, Data(0, [1])], [])], [], false, 8)
  }

  lemma EarlyStep3()
    ensures Enabled(E2(), AgentWrites([1])) && Wrote(E2(), [1]) == E3()
  {
    Nothing<byte>([1]);
    Singletons(Open, Data(0, [1]));
    Updates(Pipe([Open], []), E3().Newest(), FIRST);
  }

  function E4(): State {
    State(true, [1], [], [], Writer(false, false), true, false, Some(0), [Pipe([Data(0, [1])], [])],
       [Inc(B.Bind(B.New(8), 0), [])], true, 8)
  }

  lemma EarlyStep4()
    ensures Enabled(E3(), BrokerReads(0, true, 9)) && BrokerRead(E3(), 0, true, 9) == E4()
  {
    Singletons(Open, Data(0, [1]));
    Updates(E3().Newest(), E4().Newest(), FIRST);
    assert E3().incs + [Inc(B.Bind(B.New(8), 0), [])] == E4().incs;
  }

  function E5(): State {
    State(true, [1], [], [], Writer(false, false), true, false, Some(0), [Pipe([Data(0, [1])], [])], [Inc(Open0(0, 0,
       [], false), [])], true, 8)
  }

  lemma EarlyStep5()
    ensures Enabled(E4(), DialDone(true, 9)) && Protocol.Dialled(E4(), true, 9) == E5()
  {
    Nothing<byte>([]);
    Nothing(E4().Newest().down);
    Updates(E4().Cur(), E4().Cur(), E4().Cur());
    Updates(E4().Cur(), E5().Cur(), E4().Cur());
    Updates(E4().Newest(), E4().Newest(), FIRST);
  }

  function E6(): State {
    State(true, [1], [], [], Writer(false, false), true, false, None, [Pipe([], [Item(Some(0), CloseDown)])],
       [Incarnation(Failed([]), [], [], 0, true)], true, 8)
  }

  lemma EarlyStep6()
    ensures Enabled(E5(), BrokerReads(0, false, 9)) && BrokerRead(E5(), 0, false, 9) == E6()
  {
    Singletons(Data(0, [1]), CloseDown);
    Singletons(CloseDown, CloseDown);
    Singletons(Item(Some(0), CloseDown), Item(Some(0), CloseDown));
    Nothing<byte>([]);
    Tag1(0, CloseDown);
    Updates(E5().Newest(), Pipe([], []), FIRST);
    Updates(Pipe([], []), E6().Newest(), FIRST);
    Updates(E5().Cur(), Failing(E5().Cur(), true), E5().Cur());
    Updates(Failing(E5().Cur(), true), E6().Cur(), E5().Cur());
  }

  function E7(): State {
    State(true, [1], [], [], Writer(false, false), true, false, None,
          [Pipe([], [Item(Some(0), CloseDown), Item(Some(0), Data(0,
       [65]))])], [Incarnation(Failed([65]), [], [65], 0, true)], true, 8)
  }

  lemma EarlyStep7()
    ensures Enabled(E6(), UpstreamSends([65], true)) && Produced(E6(), [65], true) == E7()
  {
    var byte: Bytes := [65];
    Nothing(byte);
    Nothing<byte>([]);
    Tag1(0, Data(0, byte));
    Singletons(Item(Some(0), CloseDown), Item(Some(0), Data(0, byte)));
    Updates(E6().Newest(), E7().Newest(), FIRST);
    Updates(E6().Cur(), E7().Cur(), E6().Cur());
  }

  function E8(): State {
    State(true, [1], [], [], Writer(true, false), true, false, None, [Pipe([], [Item(Some(0), Data(0, [65]))])],
       [Incarnation(Failed([65]), [], [65], 0, true)], true, 8)
  }

  lemma EarlyStep8()
    ensures Enabled(E7(), ClientReads(true)) && ClientRead(E7(), true) == E8()
  {
    Singletons(Item(Some(0), CloseDown), Item(Some(0), Data(0, [65])));
    Updates(E7().Newest(), E8().Newest(), FIRST);
  }

  function E9(): State {
    State(true, [1], [], [], Writer(true, true), true, false, None, [Pipe([], [])], [Incarnation(Failed([65]), [],
       [65], 0, true)], true, 8)
  }

  lemma EarlyStep9()
    ensures Enabled(E8(), ClientReads(true)) && ClientRead(E8(), true) == E9()
  {
    Singletons(Item(Some(0), Data(0, [65])), Item(Some(0), Open));
    Updates(E8().Newest(), E9().Newest(), FIRST);
    Nothing<byte>([]);
    assert E8().src + Times(0, Some(0)) == [];
  }

  lemma EarlyPart1(run0: seq<Action>) returns (run: seq<Action>)
    requires Arrives(Init(8, 8), run0, Init(8, 8))
    ensures Arrives(Init(8, 8), run, E3())
  {
    hide Arrives, Enabled;
    hide Started, Wrote, FinishedWriting, Connected, SentAttach, ClientRead, LostUp, LostDown, BrokerRead, Produced;
    hide Ended, Protocol.Dialled;
    run := run0;
    EarlyStep1();
    Extend(Init(8, 8), run, Init(8, 8), Connect);
    run := run + [Connect];
    EarlyStep2();
    Extend(Init(8, 8), run, E1(), OpenSession);
    run := run + [OpenSession];
    EarlyStep3();
    Extend(Init(8, 8), run, E2(), AgentWrites([1]));
    run := run + [AgentWrites([1])];
  }

  lemma EarlyPart2(run0: seq<Action>) returns (run: seq<Action>)
    requires Arrives(Init(8, 8), run0, E3())
    ensures Arrives(Init(8, 8), run, E4())
  {
    hide Arrives, Enabled;
    hide Started, Wrote, FinishedWriting, Connected, SentAttach, ClientRead, LostUp, LostDown, BrokerRead, Produced;
    hide Ended, Protocol.Dialled;
    run := run0;
    EarlyStep4();
    Extend(Init(8, 8), run, E3(), BrokerReads(0, true, 9));
    run := run + [BrokerReads(0, true, 9)];
  }

  lemma EarlyPart3(run0: seq<Action>) returns (run: seq<Action>)
    requires Arrives(Init(8, 8), run0, E4())
    ensures Arrives(Init(8, 8), run, E6())
  {
    hide Arrives, Enabled;
    hide Started, Wrote, FinishedWriting, Connected, SentAttach, ClientRead, LostUp, LostDown, BrokerRead, Produced;
    hide Ended, Protocol.Dialled;
    run := run0;
    EarlyStep5();
    Extend(Init(8, 8), run, E4(), DialDone(true, 9));
    run := run + [DialDone(true, 9)];
    EarlyStep6();
    Extend(Init(8, 8), run, E5(), BrokerReads(0, false, 9));
    run := run + [BrokerReads(0, false, 9)];
  }

  lemma EarlyPart4(run0: seq<Action>) returns (run: seq<Action>)
    requires Arrives(Init(8, 8), run0, E6())
    ensures Arrives(Init(8, 8), run, E9())
  {
    hide Arrives, Enabled;
    hide Started, Wrote, FinishedWriting, Connected, SentAttach, ClientRead, LostUp, LostDown, BrokerRead, Produced;
    hide Ended, Protocol.Dialled;
    run := run0;
    EarlyStep7();
    Extend(Init(8, 8), run, E6(), UpstreamSends([65], true));
    run := run + [UpstreamSends([65], true)];
    EarlyStep8();
    Extend(Init(8, 8), run, E7(), ClientReads(true));
    run := run + [ClientReads(true)];
    EarlyStep9();
    Extend(Init(8, 8), run, E8(), ClientReads(true));
    run := run + [ClientReads(true)];
  }

  /** Where a failed write to upstream recorded the close, the end of the stream can come early: the
      close overtakes a byte that the upstream sends afterwards, and the sidecar, which has shut the
      agent's side down by then, drops the session when that byte arrives. */
  lemma FailedWriteEndsEarly() returns (run: seq<Action>)
    ensures Legal(Init(8, 8), run)
    ensures var s := Exec(Init(8, 8), run);
            && s.c.downClosed && s.c.dead && s.agentGot == []
            && |s.incs| == 1 && s.incs[0].cutShort && s.incs[0].sent == [65] && s.incs[0].s.reading
  {
    EmptyRun(Init(8, 8));
    run := EarlyPart1([]);
    run := EarlyPart2(run);
    run := EarlyPart3(run);
    run := EarlyPart4(run);
  }
}
