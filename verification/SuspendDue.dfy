/** When the poll loop has to suspend: in every run, a round issues a suspend if and only if the histories of
    calls and requests call for one, and for that reason. */
module SuspendDue {
  import opened Streams
  import opened Activity
  import opened Suspender
  import opened SuspendRuns

  // ---------------------------------------------------------------- what the histories call for

  /** When the agent was looked at, calls of the kind had been in flight without interruption for the whole
      time that the policy asks for. */
  ghost predicate Blocked(cfg: Config, w: World, log: seq<Mark>, seen: nat)
    requires w.phase.Fetched? && seen <= |log|
  {
    w.phase.st.Some? && Unbroken(log[..seen], w.phase.at - cfg.blocked / MILLI * MILLI)
  }

  /** A call began after what the suspend had seen of the history. */
  ghost predicate BeganSince(log: seq<Mark>, s: Suspend, seen: nat) {
    exists k :: s.seen <= k < seen <= |log| && log[k].begins
  }

  /** After every suspend for a blocked call of the kind another call has begun. */
  ghost predicate NewCallOf(w: World, reason: Reason, log: seq<Mark>, seen: nat) {
    forall i :: 0 <= i < |w.suspends| && w.suspends[i].reason == reason ==> BeganSince(log, w.suspends[i], seen)
  }

  /** No request was in flight during the idle window, and the round lies more than one such window after
      every detected resume. */
  ghost predicate Idle(cfg: Config, w: World) {
    && cfg.hasIngress && cfg.idle > 0
    && Level(w.ingressLog) == 0 && EndOf(w.ingressLog, w.start) <= w.now - cfg.idle
    && w.ticks != []
    && (forall j :: 0 <= j < |w.ticks| && Resumed(cfg, w.start, w.ticks, j) ==>
          w.ticks[|w.ticks| - 1] > w.ticks[j] + cfg.idle)
  }

  predicate Cooled(cfg: Config, w: World) {
    w.suspends != [] ==> w.now - w.suspends[|w.suspends| - 1].at >= cfg.cooldown
  }

  /** A blocked tool call comes first, then a blocked model call if those count, then idleness; a call that was
      suspended for already stands in the way of the others. */
  ghost function Due(cfg: Config, w: World): Option<Reason>
    requires w.phase.Fetched? && w.phase.tools <= |w.toolLog| && w.phase.models <= |w.modelLog|
  {
    if !Cooled(cfg, w) then None
    else if Blocked(cfg, w, w.toolLog, w.phase.tools) then
      if NewCallOf(w, ToolBlocked, w.toolLog, w.phase.tools) then Some(ToolBlocked) else None
    else if cfg.includeModel && Blocked(cfg, w, w.modelLog, w.phase.models) then
      if NewCallOf(w, ModelBlocked, w.modelLog, w.phase.models) then Some(ModelBlocked) else None
    else if Idle(cfg, w) then Some(IdleBetweenTurns)
    else None
  }

  // ---------------------------------------------------------------- what the poller remembers, exactly

  /** The look saw the calls as they were. */
  ghost predicate SawOf(log: seq<Mark>, at: nat, c: Calls, millis: int, seen: nat) {
    seen <= |log| && Ordered(log[..seen], at) && c == CallsAfter(log[..seen]) && millis == BlockedMillis(c, at)
  }

  ghost predicate LookExact(w: World) {
    w.phase.Fetched? ==>
      && w.phase.tools <= |w.toolLog| && w.phase.models <= |w.modelLog| && w.phase.at <= w.now
      && (w.phase.st.Some? ==>
            && SawOf(w.toolLog, w.phase.at, w.phase.st.value.tool, w.phase.st.value.toolMillis, w.phase.tools)
            && SawOf(w.modelLog, w.phase.at, w.phase.st.value.model, w.phase.st.value.modelMillis, w.phase.models))
  }

  /** The started-count of the last suspend for the reason, or 0. */
  function LastGen(suspends: seq<Suspend>, reason: Reason): nat
    decreases |suspends|
  {
    if suspends == [] then 0
    else if suspends[|suspends| - 1].reason == reason then suspends[|suspends| - 1].gen
    else LastGen(suspends[..|suspends| - 1], reason)
  }

  predicate Remembers(w: World) {
    && w.p.lastToolGen == LastGen(w.suspends, ToolBlocked)
    && w.p.lastModelGen == LastGen(w.suspends, ModelBlocked)
    && w.p.lastSuspend == if w.suspends == [] then None else Some(w.suspends[|w.suspends| - 1].at)
  }

  /** A grace time is that of some completed round that came after a gap. */
  ghost predicate GraceExact(cfg: Config, w: World) {
    w.p.graceUntil.Some? ==>
      exists j :: 0 <= j < Past(w) && Resumed(cfg, w.start, w.ticks, j) && w.ticks[j] + cfg.idle == w.p.graceUntil.value
  }

  ghost predicate Exact(cfg: Config, w: World) { LookExact(w) && Remembers(w) && GraceExact(cfg, w) }

  lemma PrefixStays(log: seq<Mark>, log': seq<Mark>, seen: nat)
    requires seen <= |log| && log <= log'
    ensures log'[..seen] == log[..seen]
  {
  }

  lemma HappensExact(cfg: Config, w: World, w': World)
    requires LogsOk(w) && Exact(cfg, w) && Happens(w, w')
    ensures Exact(cfg, w')
  {
    hide CallsAfter, BlockedMillis, Ordered, Resumed, LastGen;
    if w.phase.Fetched? && w.phase.st.Some? {
      PrefixStays(w.toolLog, w'.toolLog, w.phase.tools);
      PrefixStays(w.modelLog, w'.modelLog, w.phase.models);
    }
  }

  lemma TicksExact(cfg: Config, w: World)
    requires Exact(cfg, w) && Enabled(w, Ticks)
    ensures Exact(cfg, Step(cfg, w, Ticks))
  {
    hide LastGen;
    var w' := Step(cfg, w, Ticks);
    if w.p.graceUntil.Some? {
      var j :| 0 <= j < Past(w) && Resumed(cfg, w.start, w.ticks, j) && w.ticks[j] + cfg.idle == w.p.graceUntil.value;
      assert Resumed(cfg, w'.start, w'.ticks, j) && w'.ticks[j] == w.ticks[j];
    }
  }

  lemma FetchesExact(cfg: Config, w: World, ok: bool)
    requires LogsOk(w) && Exact(cfg, w) && Enabled(w, Fetches(ok))
    ensures Exact(cfg, Step(cfg, w, Fetches(ok)))
  {
    hide CallsAfter, BlockedMillis, Ordered, Resumed, LastGen;
    assert w.toolLog[..|w.toolLog|] == w.toolLog && w.modelLog[..|w.modelLog|] == w.modelLog;
  }

  lemma RoundRemembers(cfg: Config, before: Poller, r: Round)
    ensures var p, verdict := AfterRound(cfg, before, r), Verdict(cfg, before, r);
            && p.lastToolGen == (if verdict == Some(ToolBlocked) then Gen(ToolBlocked, r.st) else before.lastToolGen)
            && p.lastModelGen ==
               (if verdict == Some(ModelBlocked) then Gen(ModelBlocked, r.st) else before.lastModelGen)
            && p.lastSuspend == if verdict.Some? then Some(r.at) else before.lastSuspend
  {
  }

  lemma LastGenNext(suspends: seq<Suspend>, s: Suspend, reason: Reason)
    ensures LastGen(suspends + [s], reason) == if s.reason == reason then s.gen else LastGen(suspends, reason)
  {
    assert (suspends + [s])[..|suspends|] == suspends;
  }

  lemma DecidesRemember(cfg: Config, w: World)
    requires Remembers(w) && Enabled(w, Decides)
    ensures Remembers(Decided(cfg, w))
  {
    hide Verdict, AfterRound, LastGen;
    var w', r := Decided(cfg, w), ThisRound(w);
    RoundRemembers(cfg, w.p, r);
    if Verdict(cfg, w.p, r).Some? {
      var s := w'.suspends[|w.suspends|];
      assert w'.suspends == w.suspends + [s];
      LastGenNext(w.suspends, s, ToolBlocked);
      LastGenNext(w.suspends, s, ModelBlocked);
    } else {
      assert w'.suspends == w.suspends;
    }
  }

  lemma DecidesGrace(cfg: Config, w: World)
    requires GraceExact(cfg, w) && PhaseOk(w) && TicksOk(cfg, w) && Enabled(w, Decides)
    ensures GraceExact(cfg, Decided(cfg, w))
  {
    hide Verdict, AfterRound, AfterRounds, SeenOk;
    var w', last := Decided(cfg, w), |w.ticks| - 1;
    RoundTicks(cfg, w.p, ThisRound(w));
    if w.phase.now - w.p.prevTick > cfg.resumeGap {
      assert Resumed(cfg, w'.start, w'.ticks, last);
    } else if w.p.graceUntil.Some? {
      var j :| 0 <= j < Past(w) && Resumed(cfg, w.start, w.ticks, j) && w.ticks[j] + cfg.idle == w.p.graceUntil.value;
      assert Resumed(cfg, w'.start, w'.ticks, j);
    }
  }

  lemma StepExact(cfg: Config, w: World, a: Action)
    requires Inv(cfg, w) && Exact(cfg, w) && Enabled(w, a)
    ensures Exact(cfg, Step(cfg, w, a))
  {
    hide LookExact, Remembers, GraceExact, LogsOk, PhaseOk, TicksOk, GensOk, SpacedOk, IssuedOk, Justified, Decided;
    match a
    case Ticks => TicksExact(cfg, w);
    case Fetches(ok) => FetchesExact(cfg, w, ok);
    case Decides =>
      DecidesRemember(cfg, w);
      DecidesGrace(cfg, w);
      WaitingLooks(Decided(cfg, w));
      DecidedWaits(cfg, w);
    case Passes(_) => HappensExact(cfg, w, Step(cfg, w, a));
    case Tool(_) => HappensExact(cfg, w, Step(cfg, w, a));
    case Model(_) => HappensExact(cfg, w, Step(cfg, w, a));
    case Request(_) => HappensExact(cfg, w, Step(cfg, w, a));
  }

  lemma WaitingLooks(w: World)
    ensures w.phase.Waiting? ==> LookExact(w)
  {
  }

  lemma DecidedWaits(cfg: Config, w: World)
    requires Enabled(w, Decides)
    ensures Decided(cfg, w).phase.Waiting?
  {
  }

  lemma {:induction false} RunExact(cfg: Config, w: World, run: seq<Action>)
    requires Inv(cfg, w) && Exact(cfg, w) && Legal(cfg, w, run)
    ensures Exact(cfg, Exec(cfg, w, run)) && Inv(cfg, Exec(cfg, w, run))
    decreases |run|
  {
    hide Inv, Exact, Step, Enabled;
    if run != [] {
      StepInv(cfg, w, run[0]);
      StepExact(cfg, w, run[0]);
      RunExact(cfg, Step(cfg, w, run[0]), run[1..]);
    }
  }

  // ---------------------------------------------------------------- the decision

  /** What the look reported tells whether calls were in flight for that long. */
  lemma BlockedIff(log: seq<Mark>, at: nat, c: Calls, millis: int, seen: nat, blocked: nat)
    requires SawOf(log, at, c, millis, seen)
    ensures c.inFlight > 0 && millis >= blocked / MILLI <==> Unbroken(log[..seen], at - blocked / MILLI * MILLI)
    ensures c.started == Started(log[..seen]) && (c.inFlight > 0 ==> c.started > 0)
  {
    hide Unbroken, CallsAfter;
    BusyThroughout(log[..seen], at);
    BusySinceIff(log[..seen], at, at - blocked / MILLI * MILLI);
    LevelWithin(log[..seen]);
  }

  lemma {:induction false} LevelWithin(log: seq<Mark>)
    ensures Level(log) <= Started(log)
    decreases |log|
  {
    if log != [] { LevelWithin(Init(log)); }
  }

  lemma {:induction false} LastGenIs(suspends: seq<Suspend>, reason: Reason) returns (i: nat)
    ensures (i < |suspends| && suspends[i].reason == reason && suspends[i].gen == LastGen(suspends, reason)) ||
            (LastGen(suspends, reason) == 0 && forall k :: 0 <= k < |suspends| ==> suspends[k].reason != reason)
    decreases |suspends|
  {
    i := 0;
    if suspends != [] {
      if suspends[|suspends| - 1].reason == reason {
        i := |suspends| - 1;
      } else {
        i := LastGenIs(suspends[..|suspends| - 1], reason);
      }
    }
  }

  lemma {:induction false} StartsCount(log: seq<Mark>, a: nat, b: nat, k: nat)
    requires a <= k < b <= |log| && log[k].begins
    ensures Started(log[..a]) < Started(log[..b])
    decreases b
  {
    assert Init(log[..b]) == log[..b - 1] && Last(log[..b]) == log[b - 1];
    if k < b - 1 { StartsCount(log, a, b - 1, k); } else { StartedMonotone(log, a, b - 1); }
  }

  /** The started-count has grown since the last suspend for the reason if and only if a call has begun since
      each of them. */
  lemma NewCallIff(cfg: Config, w: World, reason: Reason, log: seq<Mark>, seen: nat)
    requires seen <= |log| && Started(log[..seen]) > 0 && Climb(w.suspends, reason, LastGen(w.suspends, reason))
    requires forall i :: 0 <= i < |w.suspends| && w.suspends[i].reason == reason ==> SawBlocked(cfg, log, w.suspends[i])
    ensures Started(log[..seen]) > LastGen(w.suspends, reason) <==> NewCallOf(w, reason, log, seen)
  {
    hide BusyBetween, Started;
    if Started(log[..seen]) > LastGen(w.suspends, reason) {
      forall i | 0 <= i < |w.suspends| && w.suspends[i].reason == reason ensures BeganSince(log, w.suspends[i], seen) {
        var s := w.suspends[i];
        if seen < s.seen { StartedMonotone(log, seen, s.seen); }
        var k := StartBetween(log, s.seen, seen);
      }
    }
    if NewCallOf(w, reason, log, seen) {
      var i := LastGenIs(w.suspends, reason);
      if i < |w.suspends| && w.suspends[i].reason == reason && w.suspends[i].gen == LastGen(w.suspends, reason) {
        assert BeganSince(log, w.suspends[i], seen);
        var k :| w.suspends[i].seen <= k < seen && log[k].begins;
        StartsCount(log, w.suspends[i].seen, seen, k);
      }
    }
  }

  lemma IdleForIff(log: seq<Mark>, start: nat, now: nat, idle: nat)
    requires Ordered(log, now) && start <= now && (log != [] ==> start <= log[0].at) && idle > 0
    ensures IdleFor(RequestsAfter(log, start), now) >= idle <==> Level(log) == 0 && EndOf(log, start) <= now - idle
  {
    hide RequestsAfter;
    IdleThroughout(log, start, now);
    IdleSinceIff(log, start, now);
  }

  /** No grace time runs if and only if the round lies far enough after every resume. */
  lemma GraceIff(cfg: Config, w: World)
    requires PhaseOk(w) && TicksOk(cfg, w) && GraceExact(cfg, w) && Enabled(w, Decides)
    ensures var p, last := Ticked(cfg, w.p, w.phase.now), |w.ticks| - 1;
            (p.graceUntil.Some? ==> w.phase.now > p.graceUntil.value) <==>
            (forall j :: 0 <= j <= last && Resumed(cfg, w.start, w.ticks, j) ==> w.ticks[last] > w.ticks[j] + cfg.idle)
  {
    hide SeenOk, AfterRounds, Resumed, TicksOk, Ticked;
    var p, last := Ticked(cfg, w.p, w.phase.now), |w.ticks| - 1;
    if p.graceUntil.Some? ==> w.phase.now > p.graceUntil.value { AfterResumes(cfg, w); }
    if forall j :: 0 <= j <= last && Resumed(cfg, w.start, w.ticks, j) ==> w.ticks[last] > w.ticks[j] + cfg.idle {
      assert !Resumed(cfg, w.start, w.ticks, last);
      NotResumedLast(cfg, w);
    }
  }

  lemma NotResumedLast(cfg: Config, w: World)
    requires PhaseOk(w) && TicksOk(cfg, w) && Enabled(w, Decides) && !Resumed(cfg, w.start, w.ticks, |w.ticks| - 1)
    ensures Ticked(cfg, w.p, w.phase.now).graceUntil == w.p.graceUntil
  {
    hide SeenOk, AfterRounds;
  }

  lemma IdleIff(cfg: Config, w: World)
    requires LogsOk(w) && PhaseOk(w) && TicksOk(cfg, w) && GraceExact(cfg, w) && Enabled(w, Decides)
    ensures var p := Ticked(cfg, w.p, w.phase.now);
            Idle(cfg, w) <==>
              && cfg.hasIngress && cfg.idle > 0 && (p.graceUntil.Some? ==> w.phase.now > p.graceUntil.value)
              && ThisRound(w).idleFor >= cfg.idle
  {
    hide SeenOk, AfterRounds, IdleFor, RequestsAfter, Ordered, Level, TicksOk, PhaseOk, GraceExact, Resumed, Ticked;
    GraceIff(cfg, w);
    if cfg.idle > 0 { IdleForIff(w.ingressLog, w.start, w.now, cfg.idle); }
  }

  /** The decision, from what decides it. */
  lemma VerdictFrom(cfg: Config, before: Poller, r: Round, tool: bool, model: bool, idle: bool, newTool: bool,
                    newModel: bool)
    requires tool <==> r.st.Some? && r.st.value.tool.inFlight > 0 && r.st.value.toolMillis >= cfg.blocked / MILLI
    requires model <==> r.st.Some? && r.st.value.model.inFlight > 0 && r.st.value.modelMillis >= cfg.blocked / MILLI
    requires var p := Ticked(cfg, before, r.now);
             idle <==> cfg.hasIngress && cfg.idle > 0 && (p.graceUntil.Some? ==> r.now > p.graceUntil.value) &&
                       r.idleFor >= cfg.idle
    requires tool ==> (newTool <==> r.st.value.tool.started > before.lastToolGen)
    requires model ==> (newModel <==> r.st.value.model.started > before.lastModelGen)
    ensures Verdict(cfg, before, r) ==
            if before.lastSuspend.Some? && r.at - before.lastSuspend.value < cfg.cooldown then None
            else if tool then if newTool then Some(ToolBlocked) else None
            else if cfg.includeModel && model then if newModel then Some(ModelBlocked) else None
            else if idle then Some(IdleBetweenTurns)
            else None
  {
  }

  lemma KindIff(cfg: Config, w: World, reason: Reason, log: seq<Mark>, c: Calls, millis: int, seen: nat)
    requires w.phase.Fetched? && w.phase.st.Some? && SawOf(log, w.phase.at, c, millis, seen)
    requires Climb(w.suspends, reason, LastGen(w.suspends, reason))
    requires forall i :: 0 <= i < |w.suspends| && w.suspends[i].reason == reason ==> SawBlocked(cfg, log, w.suspends[i])
    ensures c.inFlight > 0 && millis >= cfg.blocked / MILLI <==> Blocked(cfg, w, log, seen)
    ensures c.inFlight > 0 ==> (c.started > LastGen(w.suspends, reason) <==> NewCallOf(w, reason, log, seen))
  {
    hide Unbroken, NewCallOf, Climb, SawBlocked, LastGen, CallsAfter, BlockedMillis;
    BlockedIff(log, w.phase.at, c, millis, seen, cfg.blocked);
    if c.inFlight > 0 { NewCallIff(cfg, w, reason, log, seen); }
  }

  lemma VerdictIsDue(cfg: Config, w: World)
    requires Inv(cfg, w) && Exact(cfg, w) && Enabled(w, Decides)
    ensures w.phase.tools <= |w.toolLog| && w.phase.models <= |w.modelLog|
    ensures Verdict(cfg, w.p, ThisRound(w)) == Due(cfg, w)
  {
    hide Verdict, LogsOk, TicksOk, SpacedOk, IssuedOk, Climb, LastGen, SawOf, SawBlocked, NewCallOf, Blocked, Idle;
    hide Ticked, GraceExact, IdleFor, RequestsAfter;
    IdleIff(cfg, w);
    var tool, model, newTool, newModel := false, false, false, false;
    if w.phase.st.Some? {
      var st := w.phase.st.value;
      KindIff(cfg, w, ToolBlocked, w.toolLog, st.tool, st.toolMillis, w.phase.tools);
      KindIff(cfg, w, ModelBlocked, w.modelLog, st.model, st.modelMillis, w.phase.models);
      tool, model := Blocked(cfg, w, w.toolLog, w.phase.tools), Blocked(cfg, w, w.modelLog, w.phase.models);
      newTool := NewCallOf(w, ToolBlocked, w.toolLog, w.phase.tools);
      newModel := NewCallOf(w, ModelBlocked, w.modelLog, w.phase.models);
    } else {
      NotSeen(cfg, w);
    }
    VerdictFrom(cfg, w.p, ThisRound(w), tool, model, Idle(cfg, w), newTool, newModel);
  }

  lemma NotSeen(cfg: Config, w: World)
    requires w.phase.Fetched? && w.phase.st.None? && w.phase.tools <= |w.toolLog| && w.phase.models <= |w.modelLog|
    ensures !Blocked(cfg, w, w.toolLog, w.phase.tools) && !Blocked(cfg, w, w.modelLog, w.phase.models)
  {
  }

  /** In every run of agent, ingress and poller, a round issues a suspend if and only if one is due by the
      histories, and it is for that reason, at that moment. */
  lemma SuspendsIffDue(cfg: Config, start: nat, run: seq<Action>)
    requires Legal(cfg, Begun(start), run) && Enabled(Exec(cfg, Begun(start), run), Decides)
    ensures var w := Exec(cfg, Begun(start), run);
            && w.phase.tools <= |w.toolLog| && w.phase.models <= |w.modelLog|
            && var w', due := Step(cfg, w, Decides), Due(cfg, w);
               && w.suspends <= w'.suspends
               && |w'.suspends| == |w.suspends| + (if due.Some? then 1 else 0)
               && (due.Some? ==> w'.suspends[|w.suspends|].reason == due.value && w'.suspends[|w.suspends|].at == w.now)
  {
    hide Verdict, AfterRound, Due, Inv, Exact;
    BegunHolds(cfg, start);
    RunExact(cfg, Begun(start), run);
    VerdictIsDue(cfg, Exec(cfg, Begun(start), run));
  }

  lemma BegunHolds(cfg: Config, start: nat)
    ensures Inv(cfg, Begun(start)) && Exact(cfg, Begun(start))
  {
  }
}
