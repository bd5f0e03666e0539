/** The DATA frames in flight to the broker, on a tunnel that is up and has lost nothing: whether they bring it
    everything that the agent sent depends on its next byte alone. */
module Chains {
  import opened Streams
  import opened Messages
  import opened Protocol
  import opened Safety
  import opened Upstream
  import C = ClientSessions
  import B = BrokerSessions

  /** The first DATA frame of the queue, if there is one, goes on from `end`; if there is none, `end` is `n`. */
  ghost predicate Meets(q: seq<Msg>, end: nat, n: nat)
    decreases |q|
  {
    if q == [] then end == n
    else if q[0].Data? then q[0].offset <= end <= q[0].offset + |q[0].payload|
    else Meets(q[1..], end, n)
  }

  /** Each DATA frame goes on from the end of the one before, and the last one ends at `n`. */
  ghost predicate Chained(q: seq<Msg>, n: nat)
    decreases |q|
  {
    q == [] || (Chained(q[1..], n) && (q[0].Data? ==> Meets(q[1..], q[0].offset + |q[0].payload|, n)))
  }

  /** What the sidecar may send when the agent has sent `n` bytes, or `n'` with this frame. */
  predicate GoesOn(m: Msg, n: nat, n': nat) {
    if m.Data? then m.offset <= n <= m.offset + |m.payload| == n' else n' == n
  }

  lemma {:induction false} MeetsAppend(q: seq<Msg>, m: Msg, end: nat, n: nat, n': nat)
    requires Meets(q, end, n) && GoesOn(m, n, n')
    ensures Meets(q + [m], end, n')
    decreases |q|
  {
    if q == [] {
      assert (q + [m])[0] == m && (q + [m])[1..] == [];
    } else {
      assert (q + [m])[0] == q[0] && (q + [m])[1..] == q[1..] + [m];
      if !q[0].Data? { MeetsAppend(q[1..], m, end, n, n'); }
    }
  }

  lemma {:induction false} ChainedAppend(q: seq<Msg>, m: Msg, n: nat, n': nat)
    requires Chained(q, n) && GoesOn(m, n, n')
    ensures Chained(q + [m], n')
    decreases |q|
  {
    if q == [] {
      assert (q + [m])[0] == m && (q + [m])[1..] == [];
    } else {
      assert (q + [m])[0] == q[0] && (q + [m])[1..] == q[1..] + [m];
      ChainedAppend(q[1..], m, n, n');
      if q[0].Data? { MeetsAppend(q[1..], m, q[0].offset + |q[0].payload|, n, n'); }
    }
  }

  /** A broker that stands where the chain goes on is taken to its end. */
  lemma {:induction false} ChainLeads(q: seq<Msg>, m: nat, n: nat)
    requires Chained(q, n) && Meets(q, m, n)
    ensures ReachUp(q, m) == n
    decreases |q|
  {
    if q != [] { ChainLeads(q[1..], if q[0].Data? then q[0].offset + |q[0].payload| else m, n); }
  }

  /** And so is one whose next byte is in some frame of the chain. */
  lemma {:induction false} CarriedLeads(q: seq<Msg>, m: nat, n: nat)
    requires Chained(q, n) && !Misses(q, m)
    ensures ReachUp(q, m) == n
    decreases |q|
  {
    if q[0].Data? && q[0].offset <= m < q[0].offset + |q[0].payload| {
      ChainLeads(q[1..], q[0].offset + |q[0].payload|, n);
    } else {
      assert forall k :: 0 <= k < |q[1..]| ==> q[1..][k] == q[k + 1];
      CarriedLeads(q[1..], m, n);
    }
  }

  // ---------------------------------------------------------------- every step keeps it

  ghost predicate ChainsTo(s: State, n: nat) {
    s.linked && s.tunnels != [] && !s.Newest().upCut ==> Chained(s.Newest().up, n)
  }

  ghost predicate Chains(s: State) { ChainsTo(s, |s.agentSent|) }

  /** The newest tunnel carries the same frames to the broker. */
  ghost predicate SameNewest(s: State, s': State) {
    && s'.linked == s.linked && s'.agentSent == s.agentSent && |s'.tunnels| == |s.tunnels|
    && (s.tunnels != [] ==> s'.Newest().up == s.Newest().up && s'.Newest().upCut == s.Newest().upCut)
  }

  lemma SameChains(s: State, s': State)
    requires Chains(s) && SameNewest(s, s')
    ensures Chains(s')
  {
    hide Chained;
  }

  lemma SendChains(s: State, msgs: seq<Msg>, n: nat)
    requires ChainsTo(s, n) && (s.linked ==> s.tunnels != [])
    requires if msgs == [] then n == |s.agentSent| else GoesOn(msgs[0], n, |s.agentSent|)
    ensures Chains(SendUp(s, msgs))
  {
    hide Chained;
    if s.linked && msgs != [] && !s.Newest().upCut { ChainedAppend(s.Newest().up, msgs[0], n, |s.agentSent|); }
  }

  lemma ActSame(s: State, e: B.Effect, at: Option<nat>, read: Bytes)
    requires s.incs != []
    requires at.Some? ==> at.value < |s.tunnels|
    ensures SameNewest(s, Act(s, e, at, read))
  {
    hide Act, Tag, AfterEffect;
    ActChanges(s, e, at, read);
  }

  lemma PopChains(s: State, e: nat)
    requires Chains(s) && e < |s.tunnels| && s.tunnels[e].up != []
    ensures Chains(PopUp(s, e))
  {
  }

  lemma BrokerReadChains(s: State, e: nat, upstreamOk: bool, budget: nat)
    requires Chains(s) && Enabled(s, BrokerReads(e, upstreamOk, budget))
    ensures Chains(BrokerRead(s, e, upstreamOk, budget))
  {
    hide Handle, Chains;
    PopChains(s, e);
    HandleIncs(PopUp(s, e), e, s.tunnels[e].up[0], upstreamOk, budget);
    SameChains(PopUp(s, e), BrokerRead(s, e, upstreamOk, budget));
  }

  /** What the sidecar sends when it reads a frame. */
  lemma DispatchChains(s: State, item: Item, agentOk: bool)
    requires Safe(s) && Chains(s) && ItemTrue(item, s.incs)
    ensures Chains(Dispatch(s, item, agentOk))
  {
    hide Safe, SendUp, C.OnAttachOk, C.Serves, C.OnClose, Chained;
    SafeFacts(s);
    if !s.c.dead {
      match item.msg
      case AttachOk(offset) =>
        var o := C.OnAttachOk(s.c, offset);
        WithinSent(s, item);
        RetainsSent(s);
        ServesIff(s.c, s.agentSent, offset);
        SendChains(s.(c := o.c, synced := if C.Serves(s.c, offset) then item.inc else None), o.send, |s.agentSent|);
      case Data(offset, p) =>
        var o := C.DeliverDown(s.c, offset, p, agentOk && !s.c.downClosed);
        SendChains(s.(c := o.c, agentGot := s.agentGot + o.delivered, src := s.src + Times(|o.delivered|, item.inc)),
                   o.send, |s.agentSent|);
      case _ =>
    }
  }

  lemma ClientReadChains(s: State, agentOk: bool)
    requires Safe(s) && Chains(s) && Enabled(s, ClientReads(agentOk))
    ensures Chains(ClientRead(s, agentOk))
  {
    hide Safe, Dispatch, Chained, ItemTrue;
    var t := s.Newest();
    FrontTrue(s);
    ShrinkSafe(s, |s.tunnels| - 1, t.(down := t.down[1..]));
    DispatchChains(PopDown(s), t.down[0], agentOk);
  }

  lemma SidecarChains(s: State, a: Action)
    requires Safe(s) && Chains(s) && Enabled(s, a)
    requires a.OpenSession? || a.AgentWrites? || a.AgentCloses? || a.SendAttach?
    ensures Chains(Step(s, a))
  {
    hide Safe, SendUp, Chained;
    SafeFacts(s);
    RetainsSent(s);
    var n := |s.agentSent|;
    match a
    case OpenSession => SendChains(s.(started := true, synced := Some(0)), [Open], n);
    case AgentWrites(chunk) =>
      var o := C.WriteUp(s.c, chunk);
      SendChains(s.(c := o.c, agentSent := s.agentSent + chunk), o.send, n);
    case AgentCloses => SendChains(s.(c := C.CloseUp(s.c).c), C.CloseUp(s.c).send, n);
    case SendAttach => SendChains(s.(attachDue := false), [C.AttachFrame(s.c)], n);
  }

  lemma NetworkChains(s: State, a: Action)
    requires Chains(s) && Enabled(s, a)
    requires a.Connect? || a.Disconnect? || a.CutUp? || a.CutDown? || a.Remove?
    ensures Chains(Step(s, a))
  {
  }

  lemma SessionChains(s: State, a: Action)
    requires Chains(s) && Enabled(s, a)
    requires a.BrokerDrops? || a.DialDone? || a.DialFails? || a.UpstreamSends? || a.UpstreamEof? || a.WatchdogFires?
    ensures Chains(Step(s, a))
  {
    hide Act, B.DialDone, B.DialFailed, B.Produce, B.UpstreamEof, B.Detach, B.WatchdogFires, Chained;
    match a
    case BrokerDrops(e) => if s.incs != [] { ActSame(ShutTunnel(s, e), B.Detach(s.Cur().s, e), None, []); }
    case DialDone(ok, budget) =>
      var b := s.Cur().s;
      ActSame(MarkFailure(s, b.preConn != [] && !ok), B.DialDone(b, ok, budget), b.tconn, []);
    case DialFails(budget) => ActSame(s, B.DialFailed(s.Cur().s, budget), s.Cur().s.tconn, []);
    case UpstreamSends(chunk, ok) => ActSame(s, B.Produce(s.Cur().s, chunk, ok), s.Cur().s.tconn, chunk);
    case UpstreamEof(budget) => ActSame(s, B.UpstreamEof(s.Cur().s, budget), s.Cur().s.tconn, []);
    case WatchdogFires => ActSame(s, B.WatchdogFires(s.Cur().s), None, []);
  }

  lemma StepChains(s: State, a: Action)
    requires Safe(s) && Chains(s) && Enabled(s, a)
    ensures Chains(Step(s, a))
  {
    hide Safe, Chains, Started, Wrote, FinishedWriting, Connected, SentAttach, ClientRead, LostUp, LostDown, BrokerRead;
    hide Dropped, Dialled, DialRefused, Produced, Ended, Fired;
    match a
    case ClientReads(agentOk) => ClientReadChains(s, agentOk);
    case BrokerReads(e, upstreamOk, budget) => BrokerReadChains(s, e, upstreamOk, budget);
    case OpenSession => SidecarChains(s, a);
    case AgentWrites(_) => SidecarChains(s, a);
    case AgentCloses => SidecarChains(s, a);
    case SendAttach => SidecarChains(s, a);
    case Connect => NetworkChains(s, a);
    case Disconnect => NetworkChains(s, a);
    case CutUp(_, _) => NetworkChains(s, a);
    case CutDown(_, _) => NetworkChains(s, a);
    case Remove => NetworkChains(s, a);
    case _ => SessionChains(s, a);
  }

  lemma {:induction false} RunChains(s: State, run: seq<Action>)
    requires Safe(s) && Chains(s) && Legal(s, run)
    ensures Chains(Exec(s, run))
    decreases |run|
  {
    hide Safe, Chains, Step, Enabled;
    if run != [] {
      StepSafe(s, run[0]);
      StepChains(s, run[0]);
      RunChains(Step(s, run[0]), run[1..]);
    }
  }

  // ---------------------------------------------------------------- what it means

  /** On a tunnel that is up and has lost nothing, whatever has become of the attach exchange and of writes to
      upstream, the frames in flight take the broker to the end of what the agent has sent if and only if
      nothing is missing or one of them carries the broker's next byte; if none does, it takes none of them. */
  lemma UpstreamContiguousIff(s: State, upMax: nat, downMax: nat, run: seq<Action>)
    requires Legal(Init(upMax, downMax), run) && s == Exec(Init(upMax, downMax), run)
    requires s.linked && s.tunnels != [] && !s.Newest().upCut
    ensures MarkOf(s) <= |s.agentSent|
    ensures ReachUp(s.Newest().up, MarkOf(s)) == |s.agentSent| <==>
              MarkOf(s) == |s.agentSent| || !Misses(s.Newest().up, MarkOf(s))
    ensures Misses(s.Newest().up, MarkOf(s)) ==> ReachUp(s.Newest().up, MarkOf(s)) == MarkOf(s)
  {
    hide Safe, Chained;
    ReachableUpright(s, upMax, downMax, run);
    MarkWithin(s);
    InitSafe(upMax, downMax);
    RunChains(Init(upMax, downMax), run);
    var q, m := s.Newest().up, MarkOf(s);
    if Misses(q, m) { MissedStays(q, m); } else { CarriedLeads(q, m, |s.agentSent|); }
  }

  lemma InitSafe(upMax: nat, downMax: nat)
    ensures Safe(Init(upMax, downMax)) && Chains(Init(upMax, downMax))
  {
  }
}
