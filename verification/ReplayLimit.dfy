/** Recoverability from every reachable state, and its exact limits. */
module ReplayLimit {
  import opened Streams
  import opened Messages
  import opened Protocol
  import opened Safety
  import opened Introduction
  import opened Delivery
  import opened DeliveryResults
  import opened Upstream
  import opened Recovery
  import opened Oversize
  import opened Starving
  import B = BrokerSessions
  import Wire

  // ---------------------------------------------------------------- the agent's stream only grows

  lemma StepGrows(s: State, a: Action)
    requires Enabled(s, a)
    ensures s.agentGot <= Step(s, a).agentGot
  {
    hide Step, Enabled;
    if a.ClientReads? { ReadGrew(s, a.agentOk); } else { OthersDeliverNothing(s, a); }
  }

  lemma {:induction false} RunGrows(s: State, run: seq<Action>)
    requires Legal(s, run)
    ensures s.agentGot <= Exec(s, run).agentGot
    decreases |run|
  {
    hide Step, Enabled;
    if run != [] {
      StepGrows(s, run[0]);
      RunGrows(Step(s, run[0]), run[1..]);
    }
  }

  // ---------------------------------------------------------------- both directions

  /** A live session, half-closed ones included. */
  ghost predicate Alive(s: State) {
    s.started && s.incs != [] && s.inTable && !s.Cur().s.dead && !s.c.dead
  }

  /** The agent has a prefix of what the current incarnation has read, all of it if the close was passed on,
      and what it misses fits into one DATA frame. */
  ghost predicate Deliverable(s: State)
    requires s.incs != []
  {
    && s.agentGot <= s.Cur().sent && |s.Cur().sent| - |s.agentGot| <= Wire.MAX_PAYLOAD
    && (s.c.downClosed ==> s.agentGot == s.Cur().sent)
  }

  /** And the sidecar has trimmed nothing that the current incarnation has not taken, and what that misses
      fits into one DATA frame too. */
  ghost predicate Replayable(s: State)
    requires s.incs != []
  {
    && Deliverable(s)
    && s.c.upBuf.base <= B.Mark(s.Cur().s) && |s.agentSent| - B.Mark(s.Cur().s) <= Wire.MAX_PAYLOAD
  }

  /** The same incarnation, nothing new sent by either end, and both ends have all of it. */
  ghost predicate Complete(s: State, s': State) {
    && s.incs != [] && |s'.incs| == |s.incs|
    && s'.agentSent == s.agentSent && s'.Cur().sent == s.Cur().sent
    && s'.Cur().got == s'.agentSent && s'.agentGot == s'.Cur().sent
  }

  /** From every reachable state with such a session, in whichever incarnation and whatever was lost on the
      way there, a completed dial and one undisturbed reconnect complete both directions, and the sidecar
      retains nothing. */
  lemma EveryLiveSessionRecovers(s: State, upMax: nat, downMax: nat, before: seq<Action>) returns (run: seq<Action>)
    requires Reachable(s, upMax, downMax, before) && Alive(s) && Replayable(s)
    ensures Legal(s, run) && Complete(s, Exec(s, run)) && Exec(s, run).c.upBuf.bytes == []
  {
    hide Faithful, Recovered, Step, Enabled, Complete;
    ReachableFaithful(s, upMax, downMax, before);
    if s.Cur().s.connected {
      ConnectedMark(s);
      run := ReconnectRecovers(s);
      RecoveredMeans(s, Exec(s, run));
    } else {
      DialMakesRecoverable(s);
      var s1 := Step(s, DialDone(true, 1));
      var rest := ReconnectRecovers(s1);
      RecoveredMeans(s1, Exec(s1, rest));
      CompleteChains(s, s1, Exec(s1, rest));
      OneStep(s, DialDone(true, 1));
      RunThen(s, [DialDone(true, 1)], rest);
      run := [DialDone(true, 1)] + rest;
    }
  }

  lemma CompleteChains(s: State, s1: State, s2: State)
    requires Complete(s1, s2) && s.incs != [] && |s1.incs| == |s.incs| && s1.agentSent == s.agentSent
             && s1.Cur().sent == s.Cur().sent
    ensures Complete(s, s2)
  {
  }

  lemma ConnectedMark(s: State)
    requires Faithful(s) && s.incs != [] && s.Cur().s.connected
    ensures B.Mark(s.Cur().s) == |s.Cur().got|
  {
    CurrentTrue(s);
  }

  lemma RecoveredMeans(s: State, s': State)
    requires Recovered(s, s')
    ensures Complete(s, s') && s'.c.upBuf.bytes == []
  {
  }

  /** No frame in flight brings upstream its next byte, or the agent its own. */
  ghost predicate NothingComing(s: State)
    requires s.incs != []
  {
    AllMiss(s.tunnels, B.Mark(s.Cur().s)) && Quiet(s)
  }

  ghost predicate Quiet(s: State) {
    s.tunnels != [] ==> NothingNew(s.Newest().down, |s.agentGot|) && (BoundToNewest(s) ==> s.Newest().downCut)
  }

  /** The exact limit: when nothing more is on its way, a live session can be completed by any run at all if
      and only if it is replayable. */
  lemma RecoversIff(s: State, upMax: nat, downMax: nat, before: seq<Action>)
    requires Reachable(s, upMax, downMax, before) && Alive(s) && NothingComing(s)
    ensures Replayable(s) <==> exists run :: Legal(s, run) && Complete(s, Exec(s, run))
  {
    hide Faithful;
    if Replayable(s) {
      var run := EveryLiveSessionRecovers(s, upMax, downMax, before);
    } else {
      ReachableFaithful(s, upMax, downMax, before);
      forall run | Legal(s, run) ensures !Complete(s, Exec(s, run)) { NotReplayable(s, run); }
    }
  }

  lemma NotReplayable(s: State, run: seq<Action>)
    requires Faithful(s) && Alive(s) && NothingComing(s) && !Replayable(s) && Legal(s, run)
    ensures !Complete(s, Exec(s, run))
  {
    hide Faithful, Exec, AllMiss, NothingNew;
    FaithfulFacts(s);
    var m := B.Mark(s.Cur().s);
    if !(s.agentGot <= s.Cur().sent) {
      RunGrows(s, run);
    } else if s.c.downClosed && s.agentGot != s.Cur().sent {
      CloseIsFinal(s, run);
    } else if |s.Cur().sent| - |s.agentGot| > Wire.MAX_PAYLOAD {
      OversizeStrandsAgent(s, run);
    } else {
      UpstreamStarves(s, run, m, 0);
    }
  }

  lemma FaithfulFacts(s: State)
    requires Faithful(s)
    ensures Safe(s) && s.c.upBuf.Retains(s.agentSent)
  {
  }

  // ---------------------------------------------------------------- the agent's side alone

  /** The agent can be brought up to date, whatever has become of the upstream direction, if and only if it
      has a prefix of what the current incarnation has read, all of it if the close was passed on, and what
      it misses fits into one DATA frame. */
  lemma DeliveredIffFits(s: State, upMax: nat, downMax: nat, before: seq<Action>)
    requires Reachable(s, upMax, downMax, before) && Alive(s) && Quiet(s)
    ensures Deliverable(s) <==> exists run :: Legal(s, run) && Exec(s, run).agentGot == s.Cur().sent
  {
    hide Faithful;
    ReachableFaithful(s, upMax, downMax, before);
    if Deliverable(s) {
      var run := ReconnectDelivers(s);
    } else {
      forall run | Legal(s, run) ensures Exec(s, run).agentGot != s.Cur().sent {
        RunGrows(s, run);
        if s.c.downClosed {
          CloseIsFinal(s, run);
        } else if s.agentGot <= s.Cur().sent {
          OversizeStrandsAgent(s, run);
        }
      }
    }
  }

  // ---------------------------------------------------------------- a session that the broker does not hold

  /** A session whose agent has received nothing and that the broker does not hold, or holds no longer: its
      OPEN was lost, or the incarnation is over. */
  ghost predicate Absent(s: State) { s.started && !s.c.dead && !Live(s) && s.agentGot == [] }

  /** It is off the table and off the network. */
  function Forgotten(s: State): State {
    s.(inTable := false, linked := false, attachDue := !s.linked && s.attachDue)
  }

  lemma Forget(s: State) returns (run: seq<Action>)
    requires Bound(s) && Absent(s)
    ensures Arrives(s, run, Forgotten(s))
  {
    hide Arrives;
    var s1 := s.(inTable := false);
    run := [];
    EmptyRun(s);
    if s.inTable {
      Extend(s, run, s, Remove);
      run := run + [Remove];
    }
    if s.linked {
      Extend(s, run, s1, Disconnect);
      run := run + [Disconnect];
    }
  }

  /** The new incarnation, bound to the newest tunnel. */
  function Newborn(s: State): Incarnation {
    Incarnation(B.Bind(B.New(s.downMax), |s.tunnels|), [], [], 0, false)
  }

  /** The broker has created the session and answered. */
  function Reborn(s: State): State {
    s.(linked := true, attachDue := false, synced := None, inTable := true, incs := s.incs + [Newborn(s)],
       tunnels := s.tunnels + [Tunnel([], [Item(Some(|s.incs|), AttachOk(0))], false, false, true)])
  }

  lemma NewbornAnswers(s: State)
    ensures B.OnAttach(Newborn(s).s, |s.tunnels|, 0, 1) == B.Effect(Newborn(s).s, [AttachOk(0)], false, [], [])
    ensures AfterEffect(Newborn(s), B.Effect(Newborn(s).s, [AttachOk(0)], false, [], []), []) == Newborn(s)
    ensures Tag(|s.incs|, [AttachOk(0)]) == [Item(Some(|s.incs|), AttachOk(0))]
  {
    assert B.AttachReply(Newborn(s).s, 0) == [AttachOk(0)];
    B.TransmitFacts(Newborn(s).s, [AttachOk(0)], 1);
  }

  lemma Recreate(s: State)
    requires Bound(s) && !s.inTable && !s.linked && s.agentGot == []
    ensures Enabled(Asking(s), BrokerReads(|s.tunnels|, true, 1))
    ensures BrokerRead(Asking(s), |s.tunnels|, true, 1) == Reborn(s)
  {
    hide B.OnAttach, Tag, AfterEffect;
    var n, x := |s.tunnels|, Asking(s);
    NewbornAnswers(s);
    var t0, t1 := Tunnel([], [], false, false, true), Reborn(s).Newest();
    assert x.tunnels[n].up[1..] == [];
    assert x.tunnels[n := t0] == s.tunnels + [t0] && (s.tunnels + [t0])[n := t1] == s.tunnels + [t1];
    assert (s.incs + [Newborn(s)])[|s.incs| := Newborn(s)] == s.incs + [Newborn(s)];
    assert t0.down + [Item(Some(|s.incs|), AttachOk(0))] == t1.down;
  }

  lemma Restart(s: State) returns (run: seq<Action>)
    requires Bound(s) && Absent(s) && s.c.downDelivered == |s.agentGot|
    ensures Arrives(s, run, Reborn(Forgotten(s)))
  {
    hide Arrives, Asking, Connected, SentAttach, BrokerRead, Reborn;
    run := Forget(s);
    var s1 := Forgotten(s);
    Redial(s1);
    Recreate(s1);
    Extend(s, run, s1, Connect);
    Extend(s, run + [Connect], Connected(s1), SendAttach);
    Extend(s, run + [Connect] + [SendAttach], Asking(s1), BrokerReads(|s1.tunnels|, true, 1));
    run := run + [Connect] + [SendAttach] + [BrokerReads(|s1.tunnels|, true, 1)];
  }

  /** One new incarnation, nothing new sent by the agent, and both ends have all of it. */
  ghost predicate Restored(s: State, s': State) {
    && |s'.incs| == |s.incs| + 1
    && s'.agentSent == s.agentSent && s'.Cur().got == s'.agentSent && s'.agentGot == s'.Cur().sent
  }

  /** Nothing that the agent sent has been trimmed, and all of it fits into one DATA frame. */
  predicate Resendable(s: State) { s.c.upBuf.base == 0 && |s.agentSent| <= Wire.MAX_PAYLOAD }

  lemma AbsentRecovers(s: State, upMax: nat, downMax: nat, before: seq<Action>) returns (run: seq<Action>)
    requires Reachable(s, upMax, downMax, before) && Absent(s) && Resendable(s)
    ensures Legal(s, run) && Restored(s, Exec(s, run))
  {
    hide Faithful, Step, Enabled;
    ReachableFaithful(s, upMax, downMax, before);
    FaithfulFacts(s);
    var run1 := Restart(s);
    var s1 := Reborn(Forgotten(s));
    RunThen(Init(upMax, downMax), before, run1);
    var rest := EveryLiveSessionRecovers(s1, upMax, downMax, before + run1);
    RunThen(s, run1, rest);
    run := run1 + rest;
  }

  /** The exact limit for a session that the broker does not hold: when no frame in flight carries the
      agent's first byte, some run recreates it with both ends up to date if and only if nothing was trimmed
      and all that the agent sent fits into one DATA frame. */
  lemma RecreatesIff(s: State, upMax: nat, downMax: nat, before: seq<Action>)
    requires Reachable(s, upMax, downMax, before) && Absent(s) && AllMiss(s.tunnels, 0)
    ensures Resendable(s) <==> exists run :: Legal(s, run) && Restored(s, Exec(s, run))
  {
    hide Faithful, AllMiss;
    ReachableFaithful(s, upMax, downMax, before);
    FaithfulFacts(s);
    if Resendable(s) {
      var run := AbsentRecovers(s, upMax, downMax, before);
    } else {
      forall run | Legal(s, run) ensures !Restored(s, Exec(s, run)) { UpstreamStarves(s, run, 0, |s.incs|); }
    }
  }

  /** An OPEN that was lost, with whatever followed it: the sidecar cannot have trimmed anything, so that
      only the size counts. */
  lemma LostOpenRecoversIff(s: State, upMax: nat, downMax: nat, before: seq<Action>)
    requires Reachable(s, upMax, downMax, before) && s.started && !s.c.dead && s.incs == [] && AllMiss(s.tunnels, 0)
    ensures |s.agentSent| <= Wire.MAX_PAYLOAD <==> exists run :: Legal(s, run) && Restored(s, Exec(s, run))
  {
    hide AllMiss, Restored;
    ReachableUpright(s, upMax, downMax, before);
    NothingYet(s);
    RecreatesIff(s, upMax, downMax, before);
  }

  lemma NothingYet(s: State)
    requires Upright(s) && s.incs == []
    ensures !Live(s) && s.agentGot == [] && s.c.upBuf.base == 0
  {
    BytesHaveSources(s.agentGot, s.src, s.incs);
  }

  lemma BytesHaveSources(agentGot: Bytes, src: seq<Option<nat>>, incs: seq<Incarnation>)
    requires SourceTrue(agentGot, src, incs)
    ensures agentGot != [] ==> incs != []
  {
    if agentGot != [] { assert ByteTrue(agentGot[0], 0, src[0], incs); }
  }

  // ---------------------------------------------------------------- a close that comes early

  /** The broker has recorded the close while the upstream goes on sending: only a failed write does that. */
  predicate ClosedEarly(i: Incarnation) { i.s.downClosed && i.s.reading && i.s.downBuf.Free() > 0 }

  /** Then some run passes the close on and has upstream send any next byte after it, which no run ever
      delivers. */
  lemma EarlyCloseLosesBytes(s: State, upMax: nat, downMax: nat, before: seq<Action>, b: byte)
      returns (run: seq<Action>)
    requires Reachable(s, upMax, downMax, before) && Alive(s) && Deliverable(s) && ClosedEarly(s.Cur())
    ensures s.Cur().cutShort
    ensures Legal(s, run)
    ensures var s' := Exec(s, run); s'.c.downClosed && |s'.incs| == |s.incs| && s'.Cur().sent == s.Cur().sent + [b]
    ensures forall more :: Legal(Exec(s, run), more) ==> Exec(Exec(s, run), more).agentGot == s.Cur().sent
  {
    hide Faithful, Step, Enabled;
    ReachableFaithful(s, upMax, downMax, before);
    CurrentOf(s);
    run := ReconnectDelivers(s);
    var s1 := Exec(s, run);
    RunThen(Init(upMax, downMax), before, run);
    ReachableFaithful(s1, upMax, downMax, before + run);
    SendsOne(s1, b);
    OneStep(s1, UpstreamSends([b], true));
    RunThen(s, run, [UpstreamSends([b], true)]);
    run := run + [UpstreamSends([b], true)];
    var s' := Exec(s, run);
    forall more | Legal(s', more) ensures Exec(s', more).agentGot == s.Cur().sent { CloseIsFinal(s', more); }
  }

  lemma CurrentOf(s: State)
    requires Faithful(s) && s.incs != []
    ensures IncarnationTrue(s.Cur(), s.agentSent, |s.agentGot|)
  {
    CurrentTrue(s);
  }

  lemma SendsOne(s: State, b: byte)
    requires Faithful(s) && Live(s) && s.Cur().s.reading && s.Cur().s.downBuf.Free() > 0
    ensures Enabled(s, UpstreamSends([b], true))
    ensures var s' := Step(s, UpstreamSends([b], true));
            && s'.c == s.c && s'.agentGot == s.agentGot
            && |s'.incs| == |s.incs| && s'.Cur().sent == s.Cur().sent + [b]
  {
    hide Faithful, Act, B.Produce;
    BoundOf(s);
    ActChanges(s, B.Produce(s.Cur().s, [b], true), s.Cur().s.tconn, [b]);
  }

  lemma BoundOf(s: State)
    requires Faithful(s)
    ensures Bound(s)
  {
  }
}
