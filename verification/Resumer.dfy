/** The per-actor single-flight resumer (internal/broker/resumer.go): its retry loop with the growing
    backoff, and the set of actors in flight under every interleaving of wakes and loops. */
module Resumer {

  // ---------------------------------------------------------------- backoff, in nanoseconds

  const FIRST := 200_000_000
  const GROWS_BELOW := 2_000_000_000
  const CAP := 2_278_125_000
  const DEADLINE := 30_000_000_000

  function Grown(backoff: nat): nat { if backoff < GROWS_BELOW then backoff * 3 / 2 else backoff }

  /** The wait after the n-th failed attempt, counted from 0. */
  function Backoff(n: nat): nat { if n == 0 then FIRST else Grown(Backoff(n - 1)) }

  /** The waits grow by one half six times, stay below three seconds, and are all the same from the seventh on. */
  lemma {:induction false} BackoffBounds(n: nat)
    ensures FIRST <= Backoff(n) <= Backoff(n + 1) && Backoff(n) <= CAP < 3_000_000_000
    ensures n < 6 ==> 2 * Backoff(n + 1) == 3 * Backoff(n)
    ensures n >= 6 ==> Backoff(n) == CAP
  {
    if n > 6 {
      BackoffBounds(n - 1);
    } else {
      assert Backoff(1) == 300_000_000 && Backoff(2) == 450_000_000 && Backoff(3) == 675_000_000;
      assert Backoff(4) == 1_012_500_000 && Backoff(5) == 1_518_750_000 && Backoff(6) == CAP;
    }
  }

  /** The first n waits together. */
  function Waited(n: nat): nat { if n == 0 then 0 else Waited(n - 1) + Backoff(n - 1) }

  lemma {:induction false} WaitedCap(n: nat)
    requires n >= 6
    ensures Waited(n) == Waited(6) + (n - 6) * CAP
  {
    if n > 6 {
      WaitedCap(n - 1);
      BackoffBounds(n - 1);
    }
  }

  const MOST_ATTEMPTS := 18

  lemma SixWaits()
    ensures Waited(6) == 4_156_250_000
  {
    assert Backoff(1) == 300_000_000 && Backoff(2) == 450_000_000 && Backoff(3) == 675_000_000;
    assert Backoff(4) == 1_012_500_000 && Backoff(5) == 1_518_750_000;
    assert Waited(2) == 500_000_000 && Waited(4) == 1_625_000_000;
  }

  lemma TooManyWaits(n: nat)
    requires n >= MOST_ATTEMPTS
    ensures Waited(n) > DEADLINE
  {
    hide Waited;
    WaitedCap(n);
    SixWaits();
  }

  lemma NoWait()
    ensures Waited(0) == 0 && Backoff(0) == FIRST
  {
  }

  lemma NextWait(n: nat)
    ensures Waited(n + 1) == Waited(n) + Backoff(n) && Backoff(n + 1) == Grown(Backoff(n))
  {
  }

  datatype Reply = Ok | Aborted | Failed

  /** The loop of resume: it retries exactly while the call is aborted and the next wait still ends
      within the deadline, waits the backoff in between, and so ends after at most eighteen calls.
      `reply` and `took` are what the k-th call returns and how long it takes. */
  method ResumeLoop(reply: nat -> Reply, took: nat -> nat) returns (attempts: nat, waited: nat, ok: bool)
    ensures 1 <= attempts <= MOST_ATTEMPTS
    ensures waited == Waited(attempts - 1)
    ensures forall k :: 1 <= k < attempts ==> reply(k).Aborted?
    ensures ok <==> reply(attempts).Ok?
    ensures forall k :: 1 <= k < attempts ==> Elapsed(took, k) + Waited(k) <= DEADLINE
    ensures reply(attempts).Aborted? ==> Elapsed(took, attempts) + Waited(attempts) > DEADLINE
  {
    hide Waited, Backoff;
    var clock, backoff := 0, FIRST;
    NoWait();
    attempts, waited := 1, 0;
    while true
      invariant 1 <= attempts <= MOST_ATTEMPTS
      invariant backoff == Backoff(attempts - 1) && waited == Waited(attempts - 1)
      invariant clock == Elapsed(took, attempts - 1) + waited
      invariant attempts > 1 ==> clock <= DEADLINE
      invariant forall k :: 1 <= k < attempts ==> reply(k).Aborted?
      invariant forall k :: 1 <= k < attempts ==> Elapsed(took, k) + Waited(k) <= DEADLINE
      decreases MOST_ATTEMPTS - attempts
    {
      NextWait(attempts - 1);
      clock := clock + took(attempts);
      var err := reply(attempts);
      if err.Ok? {
        return attempts, waited, true;
      }
      if !err.Aborted? {
        return attempts, waited, false;
      }
      if clock + backoff > DEADLINE {
        return attempts, waited, false;
      }
      clock, waited := clock + backoff, waited + backoff;
      if attempts == MOST_ATTEMPTS {
        TooManyWaits(attempts);
        assert false;
      }
      backoff := Grown(backoff);
      attempts := attempts + 1;
    }
  }

  /** The time the first n calls take. */
  ghost function Elapsed(took: nat -> nat, n: nat): nat { if n == 0 then 0 else Elapsed(took, n - 1) + took(n) }

  // ---------------------------------------------------------------- single flight

  /** A goroutine that resume has started. */
  datatype Loop = Loop(actor: string, attempts: nat, backoff: nat, running: bool)

  /** The actors in flight and every loop ever started. */
  datatype State = State(inflight: set<string>, loops: seq<Loop>)

  datatype Action =
    | Wake(actor: string)       // resume: looks, and registers, under the lock
    | Retry(k: nat)             // loop k was aborted, has waited and calls again
    | End(k: nat)               // loop k returns, which takes its actor out of the set

  const INIT: State := State({}, [])

  predicate Enabled(s: State, a: Action) {
    match a
    case Wake(_) => true
    case Retry(k) => k < |s.loops| && s.loops[k].running
    case End(k) => k < |s.loops| && s.loops[k].running
  }

  function Step(s: State, a: Action): State
    requires Enabled(s, a)
  {
    match a
    case Wake(actor) =>
      if actor in s.inflight then s
      else State(s.inflight + {actor}, s.loops + [Loop(actor, 1, FIRST, true)])
    case Retry(k) =>
      var l := s.loops[k];
      s.(loops := s.loops[k := l.(attempts := l.attempts + 1, backoff := Grown(l.backoff))])
    case End(k) => State(s.inflight - {s.loops[k].actor}, s.loops[k := s.loops[k].(running := false)])
  }

  predicate Runs(s: State, k: nat, actor: string) { k < |s.loops| && s.loops[k].running && s.loops[k].actor == actor }

  /** The set holds exactly the actors with a running loop, of which each has one, and every loop's
      backoff is the one its number of attempts calls for. */
  ghost predicate SingleFlight(s: State) {
    && (forall actor :: actor in s.inflight <==> exists k :: Runs(s, k, actor))
    && (forall j, k, actor :: Runs(s, j, actor) && Runs(s, k, actor) ==> j == k)
    && (forall k :: 0 <= k < |s.loops| ==>
          s.loops[k].attempts >= 1 && s.loops[k].backoff == Backoff(s.loops[k].attempts - 1))
  }

  lemma StepSingleFlight(s: State, a: Action)
    requires SingleFlight(s) && Enabled(s, a)
    ensures SingleFlight(Step(s, a))
  {
    var s' := Step(s, a);
    forall actor ensures actor in s'.inflight <==> exists k: nat :: Runs(s', k, actor) {
      if actor in s.inflight {
        var k: nat :| Runs(s, k, actor);
        assert Runs(s', k, actor) || a == End(k);
      } else if actor in s'.inflight {
        assert Runs(s', |s.loops|, actor);
      }
      forall k: nat | Runs(s', k, actor) ensures actor in s'.inflight {
        if k < |s.loops| {
          assert Runs(s, k, actor);
          assert a.End? ==> Runs(s, a.k, s.loops[a.k].actor);
        }
      }
    }
    forall j: nat, k: nat, actor | Runs(s', j, actor) && Runs(s', k, actor) ensures j == k {
      if j < |s.loops| { assert Runs(s, j, actor); }
      if k < |s.loops| { assert Runs(s, k, actor); }
    }
  }

  ghost predicate Legal(s: State, run: seq<Action>)
    decreases |run|
  {
    run == [] || (Enabled(s, run[0]) && Legal(Step(s, run[0]), run[1..]))
  }

  ghost function Exec(s: State, run: seq<Action>): State
    requires Legal(s, run)
    decreases |run|
  {
    if run == [] then s else Exec(Step(s, run[0]), run[1..])
  }

  lemma {:induction false} RunSingleFlight(s: State, run: seq<Action>)
    requires SingleFlight(s) && Legal(s, run)
    ensures SingleFlight(Exec(s, run))
    decreases |run|
  {
    hide Step, Enabled, SingleFlight;
    if run != [] {
      StepSingleFlight(s, run[0]);
      RunSingleFlight(Step(s, run[0]), run[1..]);
    }
  }

  /** Over every interleaving at most one loop runs per actor, the set in flight is the set of actors
      with a running loop, every wake leaves one running, and the backoff of a running loop is below
      three seconds. */
  lemma AtMostOneLoop(run: seq<Action>, actor: string)
    requires Legal(INIT, run)
    ensures var s := Exec(INIT, run);
            && (actor in s.inflight <==> exists k :: Runs(s, k, actor))
            && (forall j, k :: Runs(s, j, actor) && Runs(s, k, actor) ==> j == k)
            && (forall k :: 0 <= k < |s.loops| ==> FIRST <= s.loops[k].backoff < 3_000_000_000)
            && (exists k :: Runs(Step(s, Wake(actor)), k, actor))
            && (|Step(s, Wake(actor)).loops| > |s.loops| <==> !exists k :: Runs(s, k, actor))
  {
    RunSingleFlight(INIT, run);
    var s := Exec(INIT, run);
    StepSingleFlight(s, Wake(actor));
    forall k | 0 <= k < |s.loops| ensures FIRST <= s.loops[k].backoff < 3_000_000_000 {
      BackoffBounds(s.loops[k].attempts - 1);
    }
  }

  // ---------------------------------------------------------------- actor names

  datatype Ref = Ref(atespace: string, name: string)

  function Show(r: Ref): string { r.atespace + "/" + r.name }

  /** The index of the first slash, or none. */
  function Slash(s: string): (i: int)
    ensures -1 <= i < |s|
    ensures i >= 0 ==> s[i] == '/' && '/' !in s[..i]
    ensures i == -1 ==> '/' !in s
  {
    if s == "" then -1
    else if s[0] == '/' then 0
    else
      var rest := Slash(s[1..]);
      if rest == -1 then -1 else rest + 1
  }

  function ParseRef(actorId: string): Ref {
    var i := Slash(actorId);
    if i >= 0 then Ref(actorId[..i], actorId[i + 1..]) else Ref("", actorId)
  }

  /** Parsing undoes printing exactly for the atespaces without a slash; a name may hold slashes. */
  lemma ParseShowIff(r: Ref)
    ensures ParseRef(Show(r)) == r <==> '/' !in r.atespace
  {
    var s := Show(r);
    assert s[|r.atespace|] == '/' && s[..|r.atespace|] == r.atespace && s[|r.atespace| + 1..] == r.name;
    var i := Slash(s);
    if i < |r.atespace| {
      assert s[i] == r.atespace[i];
    }
  }

  /** Any name: one without a slash is global and kept whole; any other is split at its first slash, and printing
      what was parsed gives it back. */
  lemma ParseAny(actorId: string)
    ensures var r := ParseRef(actorId);
            if '/' in actorId then '/' !in r.atespace && Show(r) == actorId else r == Ref("", actorId)
  {
    var i := Slash(actorId);
    if i >= 0 { assert actorId == actorId[..i] + "/" + actorId[i + 1..]; }
  }
}
