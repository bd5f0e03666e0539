/** The suspend policy composed with the agent's activity tracker and the ingress counter: what holds of
    every suspend in every run. */
module SuspendRuns {
  import opened Streams
  import opened Activity
  import opened Suspender

  /** `tools` and `models` are how much of the two histories there was when the agent was looked at. */
  datatype Phase = Waiting | Ticking(now: nat) | Fetched(now: nat, at: nat, st: Option<Seen>, tools: nat, models: nat)

  /** A suspend: in which round, when the agent was looked at, how much there was of the history of the
      blocking kind of calls, how many of those had started, and when the suspend was issued. */
  datatype Suspend = Suspend(reason: Reason, tick: nat, fetched: nat, seen: nat, gen: nat, at: nat)

  /** `p` is where the completed rounds have left the poller. */
  datatype World = World(
    start: nat,
    now: nat,
    toolLog: seq<Mark>,
    modelLog: seq<Mark>,
    ingressLog: seq<Mark>,
    p: Poller,
    rounds: seq<Round>,
    phase: Phase,
    ticks: seq<nat>,
    suspends: seq<Suspend>)

  datatype Action =
    | Passes(d: nat)
    | Tool(begins: bool)
    | Model(begins: bool)
    | Request(begins: bool)
    | Ticks
    | Fetches(ok: bool)
    | Decides

  function Begun(start: nat): World {
    World(start, start, [], [], [], Poller(0, 0, None, start, None), [], Waiting, [], [])
  }

  predicate Enabled(w: World, a: Action) {
    match a
    case Ticks => w.phase.Waiting?
    case Fetches(_) => w.phase.Ticking?
    case Decides => w.phase.Fetched? && w.ticks != []
    case _ => true
  }

  function Look(w: World): Seen {
    var tool, model := CallsAfter(w.toolLog), CallsAfter(w.modelLog);
    Seen(tool, model, BlockedMillis(tool, w.now), BlockedMillis(model, w.now))
  }

  function Gen(reason: Reason, st: Option<Seen>): nat {
    if st.None? then 0
    else match reason
      case ToolBlocked => st.value.tool.started
      case ModelBlocked => st.value.model.started
      case IdleBetweenTurns => 0
  }

  /** The round that ends now. */
  function ThisRound(w: World): Round
    requires w.phase.Fetched?
  {
    Round(w.phase.now, w.phase.st, IdleFor(RequestsAfter(w.ingressLog, w.start), w.now), w.now)
  }

  function Decided(cfg: Config, w: World): World
    requires w.phase.Fetched? && w.ticks != []
  {
    var r := ThisRound(w);
    var verdict := Verdict(cfg, w.p, r);
    w.(phase := Waiting, p := AfterRound(cfg, w.p, r), rounds := w.rounds + [r],
       suspends := w.suspends +
         if verdict.None? then []
         else [Suspend(verdict.value, |w.ticks| - 1, w.phase.at,
                       if verdict.value.ToolBlocked? then w.phase.tools else w.phase.models,
                       Gen(verdict.value, w.phase.st), w.now)])
  }

  function Step(cfg: Config, w: World, a: Action): World
    requires Enabled(w, a)
  {
    match a
    case Passes(d) => w.(now := w.now + d)
    case Tool(begins) => w.(toolLog := w.toolLog + [Mark(w.now, begins)])
    case Model(begins) => w.(modelLog := w.modelLog + [Mark(w.now, begins)])
    case Request(begins) => w.(ingressLog := w.ingressLog + [Mark(w.now, begins)])
    case Ticks => w.(ticks := w.ticks + [w.now], phase := Ticking(w.now))
    case Fetches(ok) =>
      w.(phase := Fetched(w.phase.now, w.now, if ok then Some(Look(w)) else None, |w.toolLog|, |w.modelLog|))
    case Decides => Decided(cfg, w)
  }

  // ---------------------------------------------------------------- what holds of a suspend

  /** The round came after a gap that the policy takes for a suspension. */
  predicate Resumed(cfg: Config, start: nat, ticks: seq<nat>, j: nat)
    requires j < |ticks|
  {
    ticks[j] - (if j == 0 then start else ticks[j - 1]) > cfg.resumeGap
  }

  /** Some call was in flight at every moment from `from` until before `to`. */
  ghost predicate BusyBetween(log: seq<Mark>, from: int, to: nat) {
    forall moment: nat :: from <= moment < to ==> LevelAt(log, moment) > 0
  }

  ghost predicate IdleBetween(log: seq<Mark>, from: int, to: nat) {
    forall moment: nat :: from <= moment < to ==> LevelAt(log, moment) == 0
  }

  ghost predicate SawBlocked(cfg: Config, log: seq<Mark>, s: Suspend) {
    && BusyBetween(log, s.fetched - cfg.blocked / MILLI * MILLI, s.fetched)
    && s.seen <= |log| && s.gen == Started(log[..s.seen])
  }

  /** A suspend for a blocked call: some call of the kind was in flight throughout the time the policy
      asks for. A suspend for idleness: no request was in flight throughout the idle window, and the
      round lies more than one idle window after every detected resume. */
  ghost predicate Justified(cfg: Config, w: World, s: Suspend) {
    match s.reason
    case ToolBlocked => SawBlocked(cfg, w.toolLog, s)
    case ModelBlocked => cfg.includeModel && SawBlocked(cfg, w.modelLog, s)
    case IdleBetweenTurns =>
      && IdleBetween(w.ingressLog, s.at - cfg.idle, s.at)
      && s.tick < |w.ticks|
      && (forall j :: 0 <= j <= s.tick && Resumed(cfg, w.start, w.ticks, j) ==> w.ticks[s.tick] > w.ticks[j] + cfg.idle)
  }

  /** Suspends for one kind of call come with growing started-counts. */
  predicate Climb(suspends: seq<Suspend>, reason: Reason, top: nat) {
    && (forall i, j :: 0 <= i < j < |suspends| && suspends[i].reason == suspends[j].reason == reason ==>
        suspends[i].gen < suspends[j].gen)
    && (forall i :: 0 <= i < |suspends| && suspends[i].reason == reason ==> 1 <= suspends[i].gen <= top)
  }

  function Count(suspends: seq<Suspend>, reason: Reason): nat
    decreases |suspends|
  {
    if suspends == [] then 0
    else Count(suspends[..|suspends| - 1], reason) + if suspends[|suspends| - 1].reason == reason then 1 else 0
  }

  lemma {:induction false} ClimbIsShort(suspends: seq<Suspend>, reason: Reason, top: nat)
    requires Climb(suspends, reason, top)
    ensures Count(suspends, reason) <= top
    decreases |suspends|
  {
    if suspends != [] {
      var rest, last := suspends[..|suspends| - 1], suspends[|suspends| - 1];
      assert forall i :: 0 <= i < |rest| ==> rest[i] == suspends[i];
      ClimbIsShort(rest, reason, if last.reason == reason then last.gen - 1 else top);
    }
  }

  lemma {:induction false} StartBetween(log: seq<Mark>, a: nat, b: nat) returns (k: nat)
    requires a <= b <= |log| && Started(log[..a]) < Started(log[..b])
    ensures a <= k < b && log[k].begins
    decreases b
  {
    assert a < b;
    assert Init(log[..b]) == log[..b - 1];
    if log[b - 1].begins { k := b - 1; } else { k := StartBetween(log, a, b - 1); }
  }

  // ---------------------------------------------------------------- the invariant

  ghost predicate LogsOk(w: World) {
    && Ordered(w.toolLog, w.now) && Ordered(w.modelLog, w.now) && Ordered(w.ingressLog, w.now)
    && w.start <= w.now && (w.ingressLog != [] ==> w.start <= w.ingressLog[0].at)
  }

  ghost predicate SeenOk(log: seq<Mark>, at: nat, c: Calls, millis: int, seen: nat) {
    && seen <= |log| && c.started == Started(log[..seen]) <= Started(log)
    && (c.inFlight > 0 ==> BusyBetween(log, at - millis * MILLI, at))
  }

  ghost predicate PhaseOk(w: World) {
    match w.phase
    case Waiting => true
    case Ticking(now) => w.ticks != [] && now == w.ticks[|w.ticks| - 1]
    case Fetched(now, at, st, tools, models) =>
      && w.ticks != [] && now == w.ticks[|w.ticks| - 1] && at <= w.now
      && (st.Some? ==> SeenOk(w.toolLog, at, st.value.tool, st.value.toolMillis, tools))
      && (st.Some? ==> SeenOk(w.modelLog, at, st.value.model, st.value.modelMillis, models))
  }

  /** The ticks of the completed rounds. */
  function Past(w: World): nat { if w.phase.Waiting? || w.ticks == [] then |w.ticks| else |w.ticks| - 1 }

  ghost predicate TicksOk(cfg: Config, w: World) {
    && w.p == AfterRounds(cfg, w.start, w.rounds) && |w.rounds| == Past(w)
    && w.p.prevTick == (if Past(w) == 0 then w.start else w.ticks[Past(w) - 1])
    && w.p.prevTick <= w.now && (forall j :: 0 <= j < |w.ticks| ==> w.ticks[j] <= w.now)
    && (forall j, k :: 0 <= j < k < |w.ticks| ==> w.ticks[j] <= w.ticks[k])
    && (forall j :: 0 <= j < Past(w) && Resumed(cfg, w.start, w.ticks, j) ==>
          w.p.graceUntil.Some? && w.ticks[j] + cfg.idle <= w.p.graceUntil.value)
  }

  function VerdictOf(cfg: Config, start: nat, rounds: seq<Round>, k: nat): Option<Reason>
    requires k < |rounds|
  {
    Verdict(cfg, AfterRounds(cfg, start, rounds[..k]), rounds[k])
  }

  /** The suspends are exactly those that the loop issues, round by round. */
  ghost predicate IssuedOk(cfg: Config, start: nat, rounds: seq<Round>, suspends: seq<Suspend>) {
    && (forall i :: 0 <= i < |suspends| ==>
          suspends[i].tick < |rounds| && VerdictOf(cfg, start, rounds, suspends[i].tick) == Some(suspends[i].reason))
    && (forall k :: 0 <= k < |rounds| && VerdictOf(cfg, start, rounds, k).Some? ==> Has(suspends, k))
  }

  ghost predicate Has(suspends: seq<Suspend>, k: nat) { exists i :: 0 <= i < |suspends| && suspends[i].tick == k }

  lemma VerdictNext(cfg: Config, start: nat, rounds: seq<Round>, r: Round, k: nat)
    requires k <= |rounds|
    ensures VerdictOf(cfg, start, rounds + [r], k) ==
            if k < |rounds| then VerdictOf(cfg, start, rounds, k) else Verdict(cfg, AfterRounds(cfg, start, rounds), r)
  {
    hide Verdict, AfterRounds;
    assert (rounds + [r])[..k] == rounds[..k];
    if k == |rounds| { assert rounds[..k] == rounds; }
  }

  lemma IssuedNext(cfg: Config, start: nat, rounds: seq<Round>, suspends: seq<Suspend>, r: Round, more: seq<Suspend>)
    requires IssuedOk(cfg, start, rounds, suspends)
    requires var verdict := Verdict(cfg, AfterRounds(cfg, start, rounds), r);
             if verdict.None? then more == []
             else |more| == 1 && more[0].tick == |rounds| && more[0].reason == verdict.value
    ensures IssuedOk(cfg, start, rounds + [r], suspends + more)
  {
    hide Verdict, AfterRounds, VerdictOf;
    var rounds', suspends' := rounds + [r], suspends + more;
    forall k | 0 <= k <= |rounds|
      ensures VerdictOf(cfg, start, rounds', k) ==
              if k < |rounds| then VerdictOf(cfg, start, rounds, k)
              else Verdict(cfg, AfterRounds(cfg, start, rounds), r)
    {
      VerdictNext(cfg, start, rounds, r, k);
    }
    forall k | 0 <= k < |rounds'| && VerdictOf(cfg, start, rounds', k).Some? ensures Has(suspends', k) {
      if k < |rounds| {
        var i :| 0 <= i < |suspends| && suspends[i].tick == k;
        assert suspends'[i].tick == k;
      } else {
        assert suspends'[|suspends|].tick == k;
      }
    }
  }

  ghost predicate GensOk(w: World) {
    && Climb(w.suspends, ToolBlocked, w.p.lastToolGen) && w.p.lastToolGen <= Started(w.toolLog)
    && Climb(w.suspends, ModelBlocked, w.p.lastModelGen) && w.p.lastModelGen <= Started(w.modelLog)
  }

  ghost predicate SpacedOk(cfg: Config, w: World) {
    && (forall i, j :: 0 <= i < j < |w.suspends| ==> w.suspends[i].at + cfg.cooldown <= w.suspends[j].at)
    && (w.suspends != [] ==> w.p.lastSuspend == Some(w.suspends[|w.suspends| - 1].at))
    && (forall i :: 0 <= i < |w.suspends| ==> w.suspends[i].at <= w.now && w.suspends[i].fetched <= w.now)
  }

  ghost predicate Inv(cfg: Config, w: World) {
    && LogsOk(w) && PhaseOk(w) && TicksOk(cfg, w)
    && IssuedOk(cfg, w.start, w.rounds, w.suspends) && GensOk(w) && SpacedOk(cfg, w)
    && (forall i :: 0 <= i < |w.suspends| ==> Justified(cfg, w, w.suspends[i]))
  }

  // ---------------------------------------------------------------- histories grow

  predicate Grows(now: nat, log: seq<Mark>, log': seq<Mark>) {
    log' == log || log' == log + [Mark(now, true)] || log' == log + [Mark(now, false)]
  }

  /** Nothing that happens now changes who was in flight before, and no start is forgotten. */
  lemma GrowthKeeps(log: seq<Mark>, log': seq<Mark>, now: nat)
    requires Grows(now, log, log') && Ordered(log, now)
    ensures Ordered(log', now) && Started(log) <= Started(log') && log <= log'
    ensures forall moment: nat :: moment < now ==> LevelAt(log', moment) == LevelAt(log, moment)
  {
  }

  ghost predicate WorldGrows(w: World, w': World) {
    && w'.start == w.start && w.now <= w'.now
    && Grows(w.now, w.toolLog, w'.toolLog)
    && Grows(w.now, w.modelLog, w'.modelLog)
    && Grows(w.now, w.ingressLog, w'.ingressLog)
    && (w'.ticks == w.ticks || w'.ticks == w.ticks + [w.now])
  }

  lemma BlockedStays(cfg: Config, log: seq<Mark>, log': seq<Mark>, now: nat, s: Suspend)
    requires Grows(now, log, log') && Ordered(log, now) && SawBlocked(cfg, log, s) && s.fetched <= now
    ensures SawBlocked(cfg, log', s)
  {
    GrowthKeeps(log, log', now);
    assert log'[..s.seen] == log[..s.seen];
  }

  lemma SeenStays(log: seq<Mark>, log': seq<Mark>, now: nat, at: nat, c: Calls, millis: int, seen: nat)
    requires Grows(now, log, log') && Ordered(log, now) && SeenOk(log, at, c, millis, seen) && at <= now
    ensures SeenOk(log', at, c, millis, seen)
  {
    GrowthKeeps(log, log', now);
    assert log'[..seen] == log[..seen];
  }

  lemma JustifiedStays(cfg: Config, w: World, w': World, s: Suspend)
    requires LogsOk(w) && WorldGrows(w, w')
    requires Justified(cfg, w, s) && s.at <= w.now && s.fetched <= w.now
    ensures Justified(cfg, w', s)
  {
    hide SawBlocked, LevelAt, Grows, Ordered;
    match s.reason
    case ToolBlocked => BlockedStays(cfg, w.toolLog, w'.toolLog, w.now, s);
    case ModelBlocked => BlockedStays(cfg, w.modelLog, w'.modelLog, w.now, s);
    case IdleBetweenTurns =>
      GrowthKeeps(w.ingressLog, w'.ingressLog, w.now);
      forall j | 0 <= j <= s.tick && Resumed(cfg, w'.start, w'.ticks, j)
          ensures w'.ticks[s.tick] > w'.ticks[j] + cfg.idle {
        assert Resumed(cfg, w.start, w.ticks, j);
      }
  }

  lemma AllJustifiedStay(cfg: Config, w: World, w': World)
    requires Inv(cfg, w) && WorldGrows(w, w') && w'.suspends == w.suspends
    ensures forall i :: 0 <= i < |w'.suspends| ==> Justified(cfg, w', w'.suspends[i])
  {
    forall i | 0 <= i < |w.suspends| ensures Justified(cfg, w', w.suspends[i]) {
      JustifiedStays(cfg, w, w', w.suspends[i]);
    }
  }

  // ---------------------------------------------------------------- steps

  /** Time passes, or something happens to the agent: the poller is where it was. */
  ghost predicate Happens(w: World, w': World) {
    && WorldGrows(w, w')
    && w' == w.(now := w'.now, toolLog := w'.toolLog, modelLog := w'.modelLog, ingressLog := w'.ingressLog)
  }

  lemma LogsStay(w: World, w': World)
    requires LogsOk(w) && Happens(w, w')
    ensures LogsOk(w')
  {
    hide LevelAt, Started;
    GrowthKeeps(w.toolLog, w'.toolLog, w.now);
    GrowthKeeps(w.modelLog, w'.modelLog, w.now);
    GrowthKeeps(w.ingressLog, w'.ingressLog, w.now);
  }

  lemma PhaseStays(w: World, w': World)
    requires LogsOk(w) && PhaseOk(w) && Happens(w, w')
    ensures PhaseOk(w')
  {
    hide SeenOk, Grows;
    if w.phase.Fetched? && w.phase.st.Some? {
      var at, st := w.phase.at, w.phase.st.value;
      SeenStays(w.toolLog, w'.toolLog, w.now, at, st.tool, st.toolMillis, w.phase.tools);
      SeenStays(w.modelLog, w'.modelLog, w.now, at, st.model, st.modelMillis, w.phase.models);
    }
  }

  lemma PollerStays(cfg: Config, w: World, w': World)
    requires LogsOk(w) && TicksOk(cfg, w) && GensOk(w) && SpacedOk(cfg, w) && Happens(w, w')
    ensures TicksOk(cfg, w') && GensOk(w') && SpacedOk(cfg, w')
  {
    hide Climb, Resumed, AfterRounds, LevelAt, Started, Grows;
    GrowthKeeps(w.toolLog, w'.toolLog, w.now);
    GrowthKeeps(w.modelLog, w'.modelLog, w.now);
  }

  lemma HappensInv(cfg: Config, w: World, a: Action)
    requires Inv(cfg, w) && (a.Passes? || a.Tool? || a.Model? || a.Request?)
    ensures Inv(cfg, Step(cfg, w, a))
  {
    hide Justified, LogsOk, PhaseOk, TicksOk, GensOk, SpacedOk, IssuedOk;
    var w' := Step(cfg, w, a);
    LogsStay(w, w');
    PhaseStays(w, w');
    PollerStays(cfg, w, w');
    AllJustifiedStay(cfg, w, w');
  }

  lemma TicksNext(cfg: Config, w: World)
    requires TicksOk(cfg, w) && Enabled(w, Ticks)
    ensures TicksOk(cfg, Step(cfg, w, Ticks))
  {
    hide AfterRounds;
    var w' := Step(cfg, w, Ticks);
    forall j | 0 <= j < Past(w') && Resumed(cfg, w'.start, w'.ticks, j)
      ensures w'.p.graceUntil.Some? && w'.ticks[j] + cfg.idle <= w'.p.graceUntil.value
    {
      assert Resumed(cfg, w.start, w.ticks, j);
    }
  }

  lemma TicksInv(cfg: Config, w: World)
    requires Inv(cfg, w) && Enabled(w, Ticks)
    ensures Inv(cfg, Step(cfg, w, Ticks))
  {
    hide Justified, Ordered, Climb, Started, TicksOk, IssuedOk;
    TicksNext(cfg, w);
    AllJustifiedStay(cfg, w, Step(cfg, w, Ticks));
  }

  /** A look at the agent sees its calls as they are. */
  lemma LooksTrue(log: seq<Mark>, now: nat)
    requires Ordered(log, now)
    ensures SeenOk(log, now, CallsAfter(log), BlockedMillis(CallsAfter(log), now), |log|)
  {
    BusyThroughout(log, now);
    assert log[..|log|] == log;
  }

  lemma FetchesInv(cfg: Config, w: World, ok: bool)
    requires Inv(cfg, w) && Enabled(w, Fetches(ok))
    ensures Inv(cfg, Step(cfg, w, Fetches(ok)))
  {
    hide Justified, SeenOk, CallsAfter, BlockedMillis, IssuedOk, AfterRounds, Climb, Resumed, Started;
    AllJustifiedStay(cfg, w, Step(cfg, w, Fetches(ok)));
    LooksTrue(w.toolLog, w.now);
    LooksTrue(w.modelLog, w.now);
  }

  /** The suspend that a round issues is justified. */
  lemma NewIsJustified(cfg: Config, w: World)
    requires LogsOk(w) && PhaseOk(w) && TicksOk(cfg, w) && Enabled(w, Decides)
    requires |Decided(cfg, w).suspends| > |w.suspends|
    ensures Justified(cfg, Decided(cfg, w), Decided(cfg, w).suspends[|w.suspends|])
  {
    hide Justified, LogsOk, PhaseOk, TicksOk, Verdict, AfterRound;
    var s := Decided(cfg, w).suspends[|w.suspends|];
    if s.reason.IdleBetweenTurns? { NewIdleIsJustified(cfg, w); } else { NewBlockedIsJustified(cfg, w); }
  }

  lemma NewBlockedIsJustified(cfg: Config, w: World)
    requires PhaseOk(w) && Enabled(w, Decides)
    requires |Decided(cfg, w).suspends| > |w.suspends|
    requires !Decided(cfg, w).suspends[|w.suspends|].reason.IdleBetweenTurns?
    ensures Justified(cfg, Decided(cfg, w), Decided(cfg, w).suspends[|w.suspends|])
  {
    hide LevelAt, Started, RequestsAfter, IdleFor;
  }

  lemma NewIdleIsJustified(cfg: Config, w: World)
    requires LogsOk(w) && PhaseOk(w) && TicksOk(cfg, w) && Enabled(w, Decides)
    requires |Decided(cfg, w).suspends| > |w.suspends|
    requires Decided(cfg, w).suspends[|w.suspends|].reason.IdleBetweenTurns?
    ensures Justified(cfg, Decided(cfg, w), Decided(cfg, w).suspends[|w.suspends|])
  {
    hide IdleBetween, Resumed, LogsOk, Ticked, IdleFor, SeenOk, AfterRounds, AfterRound, Verdict;
    IdleVerdict(cfg, w.p, ThisRound(w));
    IdleWindow(cfg, w);
    AfterResumes(cfg, w);
  }

  lemma IdleVerdict(cfg: Config, before: Poller, r: Round)
    requires Verdict(cfg, before, r) == Some(IdleBetweenTurns)
    ensures r.idleFor >= cfg.idle
    ensures var p := Ticked(cfg, before, r.now); p.graceUntil.Some? ==> r.now > p.graceUntil.value
  {
  }

  lemma IdleWindow(cfg: Config, w: World)
    requires LogsOk(w) && w.phase.Fetched? && ThisRound(w).idleFor >= cfg.idle
    ensures IdleBetween(w.ingressLog, w.now - cfg.idle, w.now)
  {
    hide LevelAt, RequestsAfter;
    IdleThroughout(w.ingressLog, w.start, w.now);
  }

  /** A round past the grace time lies more than one idle window after every resume, its own included. */
  lemma AfterResumes(cfg: Config, w: World)
    requires PhaseOk(w) && TicksOk(cfg, w) && Enabled(w, Decides)
    requires var p := Ticked(cfg, w.p, w.phase.now); p.graceUntil.Some? ==> w.phase.now > p.graceUntil.value
    ensures var last := |w.ticks| - 1;
            forall j :: 0 <= j <= last && Resumed(cfg, w.start, w.ticks, j) ==> w.ticks[last] > w.ticks[j] + cfg.idle
  {
    hide SeenOk, AfterRounds, Resumed;
    var last := |w.ticks| - 1;
    if Resumed(cfg, w.start, w.ticks, last) { ResumedLast(cfg, w); }
    forall j | 0 <= j <= last && Resumed(cfg, w.start, w.ticks, j) ensures w.ticks[last] > w.ticks[j] + cfg.idle {
      assert j < last && j < Past(w);
    }
  }

  /** A round that itself came after a gap is within the grace time. */
  lemma ResumedLast(cfg: Config, w: World)
    requires PhaseOk(w) && TicksOk(cfg, w) && Enabled(w, Decides) && Resumed(cfg, w.start, w.ticks, |w.ticks| - 1)
    ensures Ticked(cfg, w.p, w.phase.now).graceUntil == Some(w.phase.now + cfg.idle)
  {
    hide SeenOk, AfterRounds;
  }

  lemma ClimbNext(suspends: seq<Suspend>, s: Suspend, reason: Reason, top: nat, top': nat)
    requires Climb(suspends, reason, top) && top <= top'
    requires s.reason == reason ==> top < s.gen <= top'
    ensures Climb(suspends + [s], reason, top')
  {
  }

  lemma RoundTicks(cfg: Config, before: Poller, r: Round)
    ensures var p := AfterRound(cfg, before, r);
            && p.prevTick == r.now
            && p.graceUntil ==
               if r.now - before.prevTick > cfg.resumeGap then Some(r.now + cfg.idle) else before.graceUntil
  {
  }

  lemma RoundsNext(cfg: Config, start: nat, rounds: seq<Round>, r: Round)
    ensures AfterRounds(cfg, start, rounds + [r]) == AfterRound(cfg, AfterRounds(cfg, start, rounds), r)
  {
    assert (rounds + [r])[..|rounds|] == rounds;
  }

  lemma TicksAfter(cfg: Config, w: World)
    requires TicksOk(cfg, w) && PhaseOk(w) && Enabled(w, Decides)
    ensures TicksOk(cfg, Decided(cfg, w))
  {
    hide Verdict, AfterRound, AfterRounds, RequestsAfter, IdleFor, SeenOk;
    RoundTicks(cfg, w.p, ThisRound(w));
    RoundsNext(cfg, w.start, w.rounds, ThisRound(w));
  }

  lemma GensAfter(cfg: Config, w: World)
    requires GensOk(w) && PhaseOk(w) && Enabled(w, Decides)
    ensures GensOk(Decided(cfg, w))
  {
    hide Climb, Started, BusyBetween, RequestsAfter, IdleFor;
    var w' := Decided(cfg, w);
    assert w.suspends + [] == w.suspends;
    if |w'.suspends| > |w.suspends| {
      var s := w'.suspends[|w.suspends|];
      assert w'.suspends == w.suspends + [s];
      ClimbNext(w.suspends, s, ToolBlocked, w.p.lastToolGen, w'.p.lastToolGen);
      ClimbNext(w.suspends, s, ModelBlocked, w.p.lastModelGen, w'.p.lastModelGen);
    }
  }

  lemma SpacedAfter(cfg: Config, w: World)
    requires SpacedOk(cfg, w) && PhaseOk(w) && Enabled(w, Decides)
    ensures SpacedOk(cfg, Decided(cfg, w))
  {
    hide Choice, Started, RequestsAfter, IdleFor, SeenOk;
  }

  lemma DecidesInv(cfg: Config, w: World)
    requires Inv(cfg, w) && Enabled(w, Decides)
    ensures Inv(cfg, Step(cfg, w, Decides))
  {
    hide Justified, IssuedOk, GensOk, SpacedOk, Verdict, AfterRound, AfterRounds, RequestsAfter, IdleFor, SeenOk;
    hide Resumed;
    var w' := Step(cfg, w, Decides);
    TicksAfter(cfg, w);
    GensAfter(cfg, w);
    SpacedAfter(cfg, w);
    IssuedNext(cfg, w.start, w.rounds, w.suspends, ThisRound(w), w'.suspends[|w.suspends|..]);
    assert w'.suspends == w.suspends + w'.suspends[|w.suspends|..];
    if |w'.suspends| > |w.suspends| { NewIsJustified(cfg, w); }
    forall i | 0 <= i < |w.suspends| ensures Justified(cfg, w', w'.suspends[i]) {
      PastTimes(cfg, w, i);
      JustifiedStays(cfg, w, w', w.suspends[i]);
    }
  }

  lemma PastTimes(cfg: Config, w: World, i: nat)
    requires SpacedOk(cfg, w) && i < |w.suspends|
    ensures w.suspends[i].at <= w.now && w.suspends[i].fetched <= w.now
  {
  }

  lemma StepInv(cfg: Config, w: World, a: Action)
    requires Inv(cfg, w) && Enabled(w, a)
    ensures Inv(cfg, Step(cfg, w, a))
  {
    hide Inv, Step;
    match a
    case Ticks => TicksInv(cfg, w);
    case Fetches(ok) => FetchesInv(cfg, w, ok);
    case Decides => DecidesInv(cfg, w);
    case Passes(_) => HappensInv(cfg, w, a);
    case Tool(_) => HappensInv(cfg, w, a);
    case Model(_) => HappensInv(cfg, w, a);
    case Request(_) => HappensInv(cfg, w, a);
  }

  // ---------------------------------------------------------------- every run

  ghost predicate Legal(cfg: Config, w: World, run: seq<Action>)
    decreases |run|
  {
    run == [] || (Enabled(w, run[0]) && Legal(cfg, Step(cfg, w, run[0]), run[1..]))
  }

  ghost function Exec(cfg: Config, w: World, run: seq<Action>): World
    requires Legal(cfg, w, run)
    decreases |run|
  {
    if run == [] then w else Exec(cfg, Step(cfg, w, run[0]), run[1..])
  }

  lemma {:induction false} RunInv(cfg: Config, w: World, run: seq<Action>)
    requires Inv(cfg, w) && Legal(cfg, w, run)
    ensures Inv(cfg, Exec(cfg, w, run))
    decreases |run|
  {
    hide Inv, Step, Enabled;
    if run != [] {
      StepInv(cfg, w, run[0]);
      RunInv(cfg, Step(cfg, w, run[0]), run[1..]);
    }
  }

  lemma NewCall(cfg: Config, log: seq<Mark>, s: Suspend, s': Suspend) returns (k: nat)
    requires SawBlocked(cfg, log, s) && SawBlocked(cfg, log, s') && s.gen < s'.gen
    ensures s.seen <= k < s'.seen <= |log| && log[k].begins
  {
    if s'.seen < s.seen { StartedMonotone(log, s'.seen, s.seen); }
    k := StartBetween(log, s.seen, s'.seen);
  }

  lemma {:induction false} StartedMonotone(log: seq<Mark>, a: nat, b: nat)
    requires a <= b <= |log|
    ensures Started(log[..a]) <= Started(log[..b])
    decreases b
  {
    if a < b {
      assert Init(log[..b]) == log[..b - 1];
      StartedMonotone(log, a, b - 1);
    }
  }

  function LogOf(w: World, reason: Reason): seq<Mark> { if reason.ToolBlocked? then w.toolLog else w.modelLog }

  /** Between the looks at the agent that led to any two suspends for a blocked tool call, a new tool
      call has started; the same for model calls. */
  lemma OneSuspendPerCall(cfg: Config, start: nat, run: seq<Action>, i: nat, j: nat)
    requires Legal(cfg, Begun(start), run)
    requires var w := Exec(cfg, Begun(start), run);
             i < j < |w.suspends| && w.suspends[i].reason == w.suspends[j].reason != IdleBetweenTurns
    ensures var w := Exec(cfg, Begun(start), run);
            var log := LogOf(w, w.suspends[i].reason);
            exists k :: w.suspends[i].seen <= k < w.suspends[j].seen <= |log| && log[k].begins
  {
    RunInv(cfg, Begun(start), run);
    var w := Exec(cfg, Begun(start), run);
    var k := NewCall(cfg, LogOf(w, w.suspends[i].reason), w.suspends[i], w.suspends[j]);
  }

  /** So there are never more of those suspends than calls of the kind were started. */
  lemma NoMoreSuspendsThanCalls(cfg: Config, start: nat, run: seq<Action>)
    requires Legal(cfg, Begun(start), run)
    ensures var w := Exec(cfg, Begun(start), run);
            && Count(w.suspends, ToolBlocked) <= Started(w.toolLog)
            && Count(w.suspends, ModelBlocked) <= Started(w.modelLog)
  {
    RunInv(cfg, Begun(start), run);
    var w := Exec(cfg, Begun(start), run);
    ClimbIsShort(w.suspends, ToolBlocked, w.p.lastToolGen);
    ClimbIsShort(w.suspends, ModelBlocked, w.p.lastModelGen);
  }

  /** Every suspend of every run is justified by the history of calls and requests, and any two lie at
      least the cooldown apart. */
  lemma EverySuspendJustified(cfg: Config, start: nat, run: seq<Action>)
    requires Legal(cfg, Begun(start), run)
    ensures var w := Exec(cfg, Begun(start), run);
            && (forall i :: 0 <= i < |w.suspends| ==> Justified(cfg, w, w.suspends[i]))
            && (forall i, j :: 0 <= i < j < |w.suspends| ==> w.suspends[i].at + cfg.cooldown <= w.suspends[j].at)
  {
    RunInv(cfg, Begun(start), run);
  }

  /** The suspends of a run are those of the poll loop over the rounds of that run, no more and no fewer. */
  lemma SuspendsAreTheLoops(cfg: Config, start: nat, run: seq<Action>, k: nat)
    requires Legal(cfg, Begun(start), run)
    requires k < |Exec(cfg, Begun(start), run).rounds|
    ensures var w := Exec(cfg, Begun(start), run);
            && (VerdictOf(cfg, w.start, w.rounds, k).Some? <==> Has(w.suspends, k))
            && (forall i :: 0 <= i < |w.suspends| && w.suspends[i].tick == k ==>
                  VerdictOf(cfg, w.start, w.rounds, k) == Some(w.suspends[i].reason))
  {
    RunInv(cfg, Begun(start), run);
  }
}
