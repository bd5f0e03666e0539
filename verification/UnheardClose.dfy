/** A close that the agent does not hear of: a session recreated by a stale frame has recorded its close, the newest
    tunnel attaches beyond what it has read, which the answer passes over, and upstream then sends more. */
module UnheardClose {
  import opened Streams
  import opened ReplayBuffers
  import opened Messages
  import opened Protocol
  import opened Counterexamples
  import opened Told
  import C = ClientSessions
  import B = BrokerSessions

  /** A session whose agent has written one byte. */
  function Now(agentGot: Bytes, c: C.Client, linked: bool, attachDue: bool, synced: Option<nat>, tunnels: seq<Tunnel>,
               incs: seq<Incarnation>, inTable: bool): State
  {
    State(true, [1], agentGot, Times(|agentGot|, Some(0)), c, linked, attachDue, synced, tunnels, incs, inTable, 8)
  }

  function Half(delivered: nat, upClosed: bool): C.Client {
    C.Client(Window(0, [1], 8), delivered, upClosed, false, false)
  }

  /** The first tunnel, of which the broker reads nothing for a long time. */
  const UNREAD: Tunnel := Pipe([Open, Data(0, [1])], [])

  const OK0: Item := Item(Some(0), AttachOk(0))
  const DATA0: Item := Item(Some(0), Data(0, [65]))
  const ACK0: Item := Item(Some(0), Ack(1))
  const OVER0: Item := Item(Some(0), CloseDown)

  /** The first incarnation after it was given the byte. */
  function Fed0(base: nat, bytes: Bytes, outstanding: bool, upClosed: bool): Incarnation {
    Incarnation(Open0(1, base, bytes, upClosed).(upstreamWritten := 1, requestOutstanding := outstanding), [1], [65], 0,
                false)
  }

  const DONE0: Incarnation :=
    Incarnation(Open0(1, 1, [], true).(upstreamWritten := 1, reading := false, downClosed := true, dead := true,
                                       watchdog := false), [1], [65], 1, false)

  /** The second one after its write to upstream failed. */
  function Failed1(tc: nat, bytes: Bytes): Incarnation {
    Incarnation(Open0(tc, 0, bytes, false).(downClosed := true), [], bytes, 0, true)
  }

  lemma Updates3<T>(a: T, b: T, c: T, x: T)
    ensures [a, b, c][0 := x] == [x, b, c] && [a, b, c][1 := x] == [a, x, c] && [a, b, c][2 := x] == [a, b, x]
  {
  }

  lemma Pairs<T>(a: T, b: T, x: T)
    ensures [a, b][0 := x] == [x, b] && [a, b][1 := x] == [a, x] && [a, b] + [x] == [a, b, x] && [a] + [b] == [a, b]
  {
  }

  lemma Bytewise()
    ensures var none: Bytes, one: Bytes, it: Bytes := [], [1], [65];
            && none + one == one && one + none == one && none + none == none && it + none == it && none + it == it
            && one[0..] == one && it[0..] == it
    ensures Times(0, Some(0)) == [] && [] + Times(1, Some(0)) == Times(1, Some(0)) && |Times(1, Some(0))| == 1
  {
  }

  function R3(): State { Now([], Half(0, false), true, false, Some(0), [UNREAD], [], false) }

  function R4(): State {
    R3().(linked := false)
  }

  lemma UnheardStep4()
    ensures Enabled(R3(), Disconnect) && R3().(linked := false, attachDue := false) == R4()
  {
  }

  function R5(): State {
    Now([], Half(0, false), true, true, None, [UNREAD, Pipe([], [])], [], false)
  }

  lemma UnheardStep5()
    ensures Enabled(R4(), Connect) && Connected(R4()) == R5()
  {
  }

  function R6(): State {
    Now([], Half(0, false), true, false, None, [UNREAD, Pipe([Attach(0)], [])], [], false)
  }

  lemma UnheardStep6()
    ensures Enabled(R5(), SendAttach) && SentAttach(R5()) == R6()
  {
    Singletons(Attach(0), Open);
    Pairs(UNREAD, R5().Newest(), R6().Newest());
  }

  function R7(): State {
    Now([], Half(0, false), true, false, None, [UNREAD, Pipe([], [OK0])], [Inc(B.Bind(B.New(8), 1), [])], true)
  }

  lemma UnheardStep7()
    ensures Enabled(R6(), BrokerReads(1, true, 9)) && BrokerRead(R6(), 1, true, 9) == R7()
  {
    var b := B.Bind(B.New(8), 1);
    assert B.AttachReply(b, 0) == [AttachOk(0)];
    Singletons(AttachOk(0), Open);
    Singletons(Attach(0), Open);
    assert B.OnAttach(b, 1, 0, 9) == B.Effect(b, [AttachOk(0)], false, [], []);
    Tag1(0, AttachOk(0));
    Singletons(OK0, OK0);
    Nothing([Inc(b, [])]);
    Pairs(UNREAD, R6().Newest(), Pipe([], []));
    Pairs(UNREAD, Pipe([], []), R7().Newest());
    Updates(Inc(b, []), Inc(b, []), GONE);
    Bytewise();
  }

  function R8(): State {
    R7().(incs := [Inc(Open0(1, 0, [], false), [])])
  }

  lemma UnheardStep8()
    ensures Enabled(R7(), DialDone(true, 9)) && Protocol.Dialled(R7(), true, 9) == R8()
  {
    Bytewise();
    Nothing(R7().Newest().down);
    Updates(R7().Cur(), R7().Cur(), GONE);
    Updates(R7().Cur(), R8().Cur(), GONE);
    Pairs(UNREAD, R7().Newest(), R7().Newest());
  }

  function R9(): State {
    Now([], Half(0, false), true, false, None, [UNREAD, Pipe([], [OK0, DATA0])], [Inc(Open0(1, 0, [65], false), [65])],
        true)
  }

  lemma UnheardStep9()
    ensures Enabled(R8(), UpstreamSends([65], true)) && Produced(R8(), [65], true) == R9()
  {
    Bytewise();
    Tag1(0, Data(0, [65]));
    Singletons(OK0, DATA0);
    Pairs(UNREAD, R8().Newest(), R9().Newest());
    Updates(R8().Cur(), R9().Cur(), GONE);
  }

  function R10(): State {
    Now([], Half(0, false), true, false, Some(0), [UNREAD, Pipe([Data(0, [1])], [DATA0])], R9().incs, true)
  }

  lemma UnheardStep10()
    ensures Enabled(R9(), ClientReads(true)) && ClientRead(R9(), true) == R10()
  {
    Bytewise();
    Singletons(OK0, DATA0);
    Singletons(Data(0, [1]), Open);
    Pairs(UNREAD, R9().Newest(), Pipe([], [DATA0]));
    Pairs(UNREAD, Pipe([], [DATA0]), R10().Newest());
  }

  function R11(): State {
    Now([65], Half(1, false), true, false, Some(0), [UNREAD, Pipe([Data(0, [1]), Ack(1)], [])], R9().incs, true)
  }

  lemma UnheardStep11()
    ensures Enabled(R10(), ClientReads(true)) && ClientRead(R10(), true) == R11()
  {
    Bytewise();
    Singletons(DATA0, DATA0);
    Singletons(Data(0, [1]), Ack(1));
    Pairs(UNREAD, R10().Newest(), Pipe([Data(0, [1])], []));
    Pairs(UNREAD, Pipe([Data(0, [1])], []), R11().Newest());
  }

  function R12(): State {
    Now([65], Half(1, false), true, false, Some(0), [UNREAD, Pipe([Ack(1)], [ACK0])], [Fed0(0, [65], true, false)],
        true)
  }

  lemma UnheardStep12()
    ensures Enabled(R11(), BrokerReads(1, true, 9)) && BrokerRead(R11(), 1, true, 9) == R12()
  {
    Bytewise();
    Singletons(Data(0, [1]), Ack(1));
    Singletons(Ack(1), Open);
    TakesByte();
    Tag1(0, Ack(1));
    Singletons(ACK0, ACK0);
    Pairs(UNREAD, R11().Newest(), Pipe([Ack(1)], []));
    Pairs(UNREAD, Pipe([Ack(1)], []), R12().Newest());
    Updates(R11().Cur(), R11().Cur(), GONE);
    Updates(R11().Cur(), R12().Cur(), GONE);
  }

  function R13(): State {
    Now([65], Half(1, false), true, false, Some(0), [UNREAD, Pipe([], [ACK0])], [Fed0(1, [], false, false)], true)
  }

  lemma UnheardStep13()
    ensures Enabled(R12(), BrokerReads(1, true, 9)) && BrokerRead(R12(), 1, true, 9) == R13()
  {
    Bytewise();
    Singletons(Ack(1), Open);
    Pairs(UNREAD, R12().Newest(), R13().Newest());
    Updates(R12().Cur(), R13().Cur(), GONE);
  }

  function R14(): State {
    Now([65], Half(1, true), true, false, Some(0), [UNREAD, Pipe([CloseUp], [ACK0])], R13().incs, true)
  }

  lemma UnheardStep14()
    ensures Enabled(R13(), AgentCloses) && FinishedWriting(R13()) == R14()
  {
    Singletons(CloseUp, Open);
    Pairs(UNREAD, R13().Newest(), R14().Newest());
  }

  function R15(): State {
    Now([65], Half(1, true), true, false, Some(0), [UNREAD, Pipe([], [ACK0])], [Fed0(1, [], false, true)], true)
  }

  lemma UnheardStep15()
    ensures Enabled(R14(), BrokerReads(1, true, 9)) && BrokerRead(R14(), 1, true, 9) == R15()
  {
    Bytewise();
    Singletons(CloseUp, Open);
    Pairs(UNREAD, R14().Newest(), R15().Newest());
    Updates(R14().Cur(), R15().Cur(), GONE);
  }

  function R16(): State {
    Now([65], Half(1, true), true, false, Some(0), [UNREAD, Pipe([], [ACK0, OVER0])], [DONE0], true)
  }

  lemma UnheardStep16()
    ensures Enabled(R15(), UpstreamEof(9)) && Ended(R15(), 9) == R16()
  {
    Bytewise();
    var b := Fed0(1, [], false, true).s.(reading := false, downClosed := true);
    B.TransmitFacts(b, [CloseDown], 9);
    Tag1(0, CloseDown);
    Singletons(ACK0, OVER0);
    Pairs(UNREAD, R15().Newest(), R16().Newest());
    Updates(R15().Cur(), DONE0, GONE);
  }

  function R17(): State {
    R16().(inTable := false)
  }

  lemma UnheardStep17()
    ensures Enabled(R16(), Remove) && R16().(inTable := false) == R17()
  {
  }

  function R18(): State {
    R17().(linked := false)
  }

  lemma UnheardStep18()
    ensures Enabled(R17(), Disconnect) && R17().(linked := false, attachDue := false) == R18()
  {
  }

  function R19(): State {
    Now([65], Half(1, true), false, false, Some(0), [Pipe([Data(0, [1])], []), R16().Newest()],
        [DONE0, Inc(B.Bind(B.New(8), 0), [])],
        true)
  }

  lemma UnheardStep19()
    ensures Enabled(R18(), BrokerReads(0, true, 9)) && BrokerRead(R18(), 0, true, 9) == R19()
  {
    Singletons(Open, Data(0, [1]));
    Pairs(UNREAD, R16().Newest(), R19().tunnels[0]);
    Singletons(DONE0, Inc(B.Bind(B.New(8), 0), []));
  }

  function R20(): State {
    R19().(incs := [DONE0, Inc(Open0(0, 0, [], false), [])])
  }

  lemma UnheardStep20()
    ensures Enabled(R19(), DialDone(true, 9)) && Protocol.Dialled(R19(), true, 9) == R20()
  {
    Bytewise();
    Nothing<Item>([]);
    Pairs(DONE0, R19().Cur(), R19().Cur());
    Pairs(DONE0, R19().Cur(), R20().Cur());
    Pairs(R19().tunnels[0], R19().tunnels[1], R19().tunnels[0]);
  }

  function R21(): State {
    Now([65], Half(1, true), false, false, None, [Pipe([], [Item(Some(1), CloseDown)]), R16().Newest()],
        [DONE0, Failed1(0, [])], true)
  }

  lemma UnheardStep21()
    ensures Enabled(R20(), BrokerReads(0, false, 9)) && BrokerRead(R20(), 0, false, 9) == R21()
  {
    Bytewise();
    Singletons(Data(0, [1]), Open);
    B.TransmitFacts(Failed1(0, []).s, [CloseDown], 9);
    Tag1(1, CloseDown);
    Singletons(Item(Some(1), CloseDown), OVER0);
    Pairs(R20().tunnels[0], R20().tunnels[1], Pipe([], []));
    Pairs(Pipe([], []), R20().tunnels[1], R21().tunnels[0]);
    Pairs(DONE0, R20().Cur(), Failing(R20().Cur(), true));
    Pairs(DONE0, Failing(R20().Cur(), true), R21().Cur());
  }

  function R22(): State {
    Now([65], Half(1, true), true, true, None, R21().tunnels + [Pipe([], [])], R21().incs, true)
  }

  lemma UnheardStep22()
    ensures Enabled(R21(), Connect) && Connected(R21()) == R22()
  {
  }

  function R23(): State {
    Now([65], Half(1, true), true, false, None, R21().tunnels + [Pipe([Attach(1)], [])], R21().incs, true)
  }

  lemma UnheardStep23()
    ensures Enabled(R22(), SendAttach) && SentAttach(R22()) == R23()
  {
    Singletons(Attach(1), Open);
    Pairs(R21().tunnels[0], R21().tunnels[1], Pipe([], []));
    Pairs(R21().tunnels[0], R21().tunnels[1], R23().Newest());
    Updates3(R21().tunnels[0], R21().tunnels[1], Pipe([], []), R23().Newest());
  }

  function R24(): State {
    Now([65], Half(1, true), true, false, None, R21().tunnels + [Pipe([], [Item(Some(1), AttachOk(0))])],
        [DONE0, Failed1(2, [])], true)
  }

  lemma UnheardStep24()
    ensures Enabled(R23(), BrokerReads(2, true, 9)) && BrokerRead(R23(), 2, true, 9) == R24()
  {
    Bytewise();
    Singletons(Attach(1), Open);
    var b := Failed1(2, []).s;
    assert B.AttachReply(Failed1(0, []).s, 1) == [AttachOk(0)];
    B.TransmitFacts(b, [AttachOk(0)], 9);
    Tag1(1, AttachOk(0));
    Singletons(Item(Some(1), AttachOk(0)), OVER0);
    var t0, t1 := R21().tunnels[0], R21().tunnels[1];
    Pairs(t0, t1, R23().Newest());
    Pairs(t0, t1, Pipe([], []));
    Pairs(t0, t1, R24().Newest());
    Updates3(t0, t1, R23().Newest(), Pipe([], []));
    Updates3(t0, t1, Pipe([], []), R24().Newest());
    Pairs(DONE0, R23().Cur(), R24().Cur());
  }

  function R25(): State {
    Now([65], Half(1, true), true, false, None,
        R21().tunnels + [Pipe([], [Item(Some(1), AttachOk(0)), Item(Some(1), Data(0, [66]))])],
        [DONE0, Failed1(2, [66])], true)
  }

  lemma UnheardStep25()
    ensures Enabled(R24(), UpstreamSends([66], true)) && Produced(R24(), [66], true) == R25()
  {
    Bytewise();
    var it: Bytes := [66];
    assert [] + it == it;
    Tag1(1, Data(0, [66]));
    Singletons(Item(Some(1), AttachOk(0)), Item(Some(1), Data(0, [66])));
    var t0, t1 := R21().tunnels[0], R21().tunnels[1];
    Pairs(t0, t1, R24().Newest());
    Pairs(t0, t1, R25().Newest());
    Updates3(t0, t1, R24().Newest(), R25().Newest());
    Pairs(DONE0, R24().Cur(), R25().Cur());
  }

  /** The byte is given to upstream and acknowledged. */
  lemma TakesByte()
    ensures B.OnData(Open0(1, 0, [65], false), 0, [1], true, 9) ==
            B.Effect(Fed0(0, [65], true, false).s, [Ack(1)], false, [], [1])
  {
    Bytewise();
    B.TransmitFacts(Fed0(0, [65], true, false).s, [Ack(1)], 9);
  }

  lemma UnheardPart1(run0: seq<Action>) returns (run: seq<Action>)
    requires Arrives(Init(8, 8), run0, R3())
    ensures Arrives(Init(8, 8), run, R9())
  {
    hide Arrives, Enabled;
    hide Connected, SentAttach, FinishedWriting, ClientRead, BrokerRead, Produced, Ended, Protocol.Dialled;
    run := run0;
    UnheardStep4();
    Extend(Init(8, 8), run, R3(), Disconnect);
    run := run + [Disconnect];
    UnheardStep5();
    Extend(Init(8, 8), run, R4(), Connect);
    run := run + [Connect];
    UnheardStep6();
    Extend(Init(8, 8), run, R5(), SendAttach);
    run := run + [SendAttach];
    UnheardStep7();
    Extend(Init(8, 8), run, R6(), BrokerReads(1, true, 9));
    run := run + [BrokerReads(1, true, 9)];
    UnheardStep8();
    Extend(Init(8, 8), run, R7(), DialDone(true, 9));
    run := run + [DialDone(true, 9)];
    UnheardStep9();
    Extend(Init(8, 8), run, R8(), UpstreamSends([65], true));
    run := run + [UpstreamSends([65], true)];
  }

  lemma UnheardPart2(run0: seq<Action>) returns (run: seq<Action>)
    requires Arrives(Init(8, 8), run0, R9())
    ensures Arrives(Init(8, 8), run, R14())
  {
    hide Arrives, Enabled;
    hide Connected, SentAttach, FinishedWriting, ClientRead, BrokerRead, Produced, Ended, Protocol.Dialled;
    run := run0;
    UnheardStep10();
    Extend(Init(8, 8), run, R9(), ClientReads(true));
    run := run + [ClientReads(true)];
    UnheardStep11();
    Extend(Init(8, 8), run, R10(), ClientReads(true));
    run := run + [ClientReads(true)];
    UnheardStep12();
    Extend(Init(8, 8), run, R11(), BrokerReads(1, true, 9));
    run := run + [BrokerReads(1, true, 9)];
    UnheardStep13();
    Extend(Init(8, 8), run, R12(), BrokerReads(1, true, 9));
    run := run + [BrokerReads(1, true, 9)];
    UnheardStep14();
    Extend(Init(8, 8), run, R13(), AgentCloses);
    run := run + [AgentCloses];
  }

  lemma UnheardPart3(run0: seq<Action>) returns (run: seq<Action>)
    requires Arrives(Init(8, 8), run0, R14())
    ensures Arrives(Init(8, 8), run, R19())
  {
    hide Arrives, Enabled;
    hide Connected, SentAttach, FinishedWriting, ClientRead, BrokerRead, Produced, Ended, Protocol.Dialled;
    run := run0;
    UnheardStep15();
    Extend(Init(8, 8), run, R14(), BrokerReads(1, true, 9));
    run := run + [BrokerReads(1, true, 9)];
    UnheardStep16();
    Extend(Init(8, 8), run, R15(), UpstreamEof(9));
    run := run + [UpstreamEof(9)];
    UnheardStep17();
    Extend(Init(8, 8), run, R16(), Remove);
    run := run + [Remove];
    UnheardStep18();
    Extend(Init(8, 8), run, R17(), Disconnect);
    run := run + [Disconnect];
    UnheardStep19();
    Extend(Init(8, 8), run, R18(), BrokerReads(0, true, 9));
    run := run + [BrokerReads(0, true, 9)];
  }

  lemma UnheardPart4(run0: seq<Action>) returns (run: seq<Action>)
    requires Arrives(Init(8, 8), run0, R19())
    ensures Arrives(Init(8, 8), run, R25())
  {
    hide Arrives, Enabled;
    hide Connected, SentAttach, FinishedWriting, ClientRead, BrokerRead, Produced, Ended, Protocol.Dialled;
    run := run0;
    UnheardStep20();
    Extend(Init(8, 8), run, R19(), DialDone(true, 9));
    run := run + [DialDone(true, 9)];
    UnheardStep21();
    Extend(Init(8, 8), run, R20(), BrokerReads(0, false, 9));
    run := run + [BrokerReads(0, false, 9)];
    UnheardStep22();
    Extend(Init(8, 8), run, R21(), Connect);
    run := run + [Connect];
    UnheardStep23();
    Extend(Init(8, 8), run, R22(), SendAttach);
    run := run + [SendAttach];
    UnheardStep24();
    Extend(Init(8, 8), run, R23(), BrokerReads(2, true, 9));
    run := run + [BrokerReads(2, true, 9)];
    UnheardStep25();
    Extend(Init(8, 8), run, R24(), UpstreamSends([66], true));
    run := run + [UpstreamSends([66], true)];
  }

  /** The session is bound to the newest tunnel, which has lost nothing, and has recorded its close; the agent has no
      more than it has read; and no close is in flight. */
  lemma CloseGoesUnheard() returns (run: seq<Action>)
    ensures Legal(Init(8, 8), run)
    ensures var s := Exec(Init(8, 8), run);
            && Listening(s) && s.linked && s.Cur().s.downClosed && !s.Cur().s.dead
            && |s.agentGot| <= |s.Cur().sent| && !s.c.downClosed && !HasClose(s.Newest().down, |s.incs| - 1)
  {
    hide R25;
    EmptyRun(Init(8, 8));
    run := EarlyPart1([]);
    StartsSame();
    run := UnheardPart1(run);
    run := UnheardPart2(run);
    run := UnheardPart3(run);
    run := UnheardPart4(run);
    UnheardEnd();
  }

  lemma StartsSame()
    ensures R3() == E3()
  {
    Bytewise();
  }

  lemma UnheardEnd()
    ensures var s := R25();
            && Listening(s) && s.linked && s.Cur().s.downClosed && !s.Cur().s.dead
            && |s.agentGot| <= |s.Cur().sent| && !s.c.downClosed && !HasClose(s.Newest().down, |s.incs| - 1)
  {
    Pairs(R21().tunnels[0], R21().tunnels[1], R25().tunnels[2]);
  }
}
