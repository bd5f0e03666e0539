/** The sidecar's suspend policy (internal/sidecar/suspender.go): how one round of the poll loop decides,
    and the loop. */
module Suspender {
  import opened Streams
  import opened Activity

  datatype Config = Config(blocked: nat, includeModel: bool, idle: nat, cooldown: nat, resumeGap: nat, hasIngress: bool)

  datatype Reason = ToolBlocked | ModelBlocked | IdleBetweenTurns

  /** What a poll sees of the agent. */
  datatype Seen = Seen(tool: Calls, model: Calls, toolMillis: int, modelMillis: int)

  datatype Poller = Poller(lastToolGen: nat, lastModelGen: nat, lastSuspend: Option<nat>, prevTick: nat,
                           graceUntil: Option<nat>)

  function DecideBlocked(cfg: Config, st: Seen): Option<Reason> {
    if st.tool.inFlight > 0 && st.toolMillis >= cfg.blocked / MILLI then Some(ToolBlocked)
    else if cfg.includeModel && st.model.inFlight > 0 && st.modelMillis >= cfg.blocked / MILLI then Some(ModelBlocked)
    else None
  }

  /** A tick at `now`: a long gap since the last one means that the actor was suspended in between. */
  function Ticked(cfg: Config, p: Poller, now: nat): Poller {
    p.(prevTick := now, graceUntil := if now - p.prevTick > cfg.resumeGap then Some(now + cfg.idle) else p.graceUntil)
  }

  function Choice(cfg: Config, p: Poller, now: nat, st: Option<Seen>, idleFor: int): Option<Reason> {
    var blocked := if st.Some? then DecideBlocked(cfg, st.value) else None;
    if blocked.Some? then blocked
    else if cfg.hasIngress && cfg.idle > 0 && (p.graceUntil.Some? ==> now > p.graceUntil.value) && idleFor >= cfg.idle
    then Some(IdleBetweenTurns) else None
  }

  /** The call that blocks was suspended for before. */
  predicate Already(p: Poller, reason: Reason, st: Option<Seen>) {
    st.Some? &&
    match reason
    case ToolBlocked => st.value.tool.started <= p.lastToolGen
    case ModelBlocked => st.value.model.started <= p.lastModelGen
    case IdleBetweenTurns => false
  }

  predicate Suspends(cfg: Config, p: Poller, now: nat, st: Option<Seen>, idleFor: int, at: nat) {
    var reason := Choice(cfg, p, now, st, idleFor);
    reason.Some? && !Already(p, reason.value, st) && (p.lastSuspend.Some? ==> at - p.lastSuspend.value >= cfg.cooldown)
  }

  function Suspended(p: Poller, reason: Reason, st: Option<Seen>, at: nat): Poller {
    p.(lastSuspend := Some(at),
       lastToolGen := if reason.ToolBlocked? && st.Some? then st.value.tool.started else p.lastToolGen,
       lastModelGen := if reason.ModelBlocked? && st.Some? then st.value.model.started else p.lastModelGen)
  }

  // ---------------------------------------------------------------- the loop

  /** One round of the loop: when it ticks, what the fetch returns, how long ingress has been idle, and
      when the suspend would be issued. */
  datatype Round = Round(now: nat, st: Option<Seen>, idleFor: int, at: nat)

  /** What the poller decides in a round, given where the earlier ones left it. */
  function Verdict(cfg: Config, before: Poller, r: Round): Option<Reason> {
    var p := Ticked(cfg, before, r.now);
    if Suspends(cfg, p, r.now, r.st, r.idleFor, r.at) then Choice(cfg, p, r.now, r.st, r.idleFor) else None
  }

  function AfterRound(cfg: Config, before: Poller, r: Round): Poller {
    var p, verdict := Ticked(cfg, before, r.now), Verdict(cfg, before, r);
    if verdict.Some? then Suspended(p, verdict.value, r.st, r.at) else p
  }

  function AfterRounds(cfg: Config, start: nat, rounds: seq<Round>): Poller
    decreases |rounds|
  {
    if rounds == [] then Poller(0, 0, None, start, None)
    else AfterRound(cfg, AfterRounds(cfg, start, rounds[..|rounds| - 1]), rounds[|rounds| - 1])
  }

  /** The body of the loop. */
  method Poll(cfg: Config, before: Poller, r: Round) returns (p: Poller, issued: Option<Reason>)
    ensures issued == Verdict(cfg, before, r) && p == AfterRound(cfg, before, r)
  {
    p, issued := before, None;
    if r.now - p.prevTick > cfg.resumeGap {
      p := p.(graceUntil := Some(r.now + cfg.idle));
    }
    p := p.(prevTick := r.now);
    var reason: Option<Reason> := None;
    if r.st.Some? {
      reason := DecideBlocked(cfg, r.st.value);
    }
    if reason.None? && cfg.hasIngress && cfg.idle > 0 && (p.graceUntil.None? || r.now > p.graceUntil.value)
        && r.idleFor >= cfg.idle {
      reason := Some(IdleBetweenTurns);
    }
    if reason.None? {
      return;
    }
    match reason.value {
      case ToolBlocked =>
        if r.st.value.tool.started <= p.lastToolGen {
          return;
        }
      case ModelBlocked =>
        if r.st.value.model.started <= p.lastModelGen {
          return;
        }
      case IdleBetweenTurns =>
    }
    if p.lastSuspend.Some? && r.at - p.lastSuspend.value < cfg.cooldown {
      return;
    }
    match reason.value {
      case ToolBlocked => p := p.(lastToolGen := r.st.value.tool.started);
      case ModelBlocked => p := p.(lastModelGen := r.st.value.model.started);
      case IdleBetweenTurns =>
    }
    p := p.(lastSuspend := Some(r.at));
    issued := reason;
  }

  /** Run over any sequence of rounds suspends in exactly the rounds in which the policy says so. */
  method Run(cfg: Config, start: nat, rounds: seq<Round>) returns (issued: seq<Option<Reason>>)
    ensures |issued| == |rounds|
    ensures forall k :: 0 <= k < |rounds| ==> issued[k] == Verdict(cfg, AfterRounds(cfg, start, rounds[..k]), rounds[k])
  {
    hide Verdict, AfterRound;
    var p := Poller(0, 0, None, start, None);
    issued := [];
    assert rounds[..0] == [];
    for k := 0 to |rounds|
      invariant p == AfterRounds(cfg, start, rounds[..k]) && |issued| == k
      invariant forall j :: 0 <= j < k ==> issued[j] == Verdict(cfg, AfterRounds(cfg, start, rounds[..j]), rounds[j])
    {
      assert rounds[..k + 1][..k] == rounds[..k];
      var verdict;
      p, verdict := Poll(cfg, p, rounds[k]);
      issued := issued + [verdict];
    }
  }
}
