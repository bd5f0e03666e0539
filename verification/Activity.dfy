/** The agent's activity counters (internal/activityz/activityz.go) and the sidecar's ingress counter
    (internal/sidecar/ingress.go), and what their timestamps say about the whole history of calls. */
module Activity {
  import opened Streams

  /** Times are in nanoseconds of one clock that does not run backwards. */
  const MILLI := 1_000_000

  /** The calls of one kind: how many are in flight, how many were ever started, and when the number in
      flight last left zero. */
  datatype Calls = Calls(inFlight: nat, started: nat, busySince: Option<nat>)

  function Begin(c: Calls, now: nat): Calls {
    Calls(c.inFlight + 1, c.started + 1, if c.inFlight == 0 then Some(now) else c.busySince)
  }

  function End(c: Calls): Calls {
    var left := if c.inFlight > 0 then c.inFlight - 1 else 0;
    c.(inFlight := left, busySince := if left == 0 then None else c.busySince)
  }

  function BlockedMillis(c: Calls, now: nat): int { if c.busySince.Some? then (now - c.busySince.value) / MILLI else 0 }

  /** The ingress requests in flight, and since when there are none. */
  datatype Requests = Requests(inFlight: nat, idleSince: Option<nat>)

  function Enter(r: Requests): Requests { Requests(r.inFlight + 1, None) }

  function Leave(r: Requests, now: nat): Requests {
    var left := if r.inFlight > 0 then r.inFlight - 1 else 0;
    Requests(left, if left == 0 then Some(now) else r.idleSince)
  }

  function IdleFor(r: Requests, now: nat): int {
    if r.inFlight > 0 || r.idleSince.None? then 0 else now - r.idleSince.value
  }

  // ---------------------------------------------------------------- histories

  /** The beginning or the end of a call or request. */
  datatype Mark = Mark(at: nat, begins: bool)

  function Last(log: seq<Mark>): Mark
    requires log != []
  {
    log[|log| - 1]
  }

  function Init(log: seq<Mark>): seq<Mark>
    requires log != []
  {
    log[..|log| - 1]
  }

  /** How many are in flight after the history. */
  function Level(log: seq<Mark>): nat
    decreases |log|
  {
    if log == [] then 0
    else if Last(log).begins then Level(Init(log)) + 1
    else if Level(Init(log)) > 0 then Level(Init(log)) - 1
    else 0
  }

  /** The part of the history up to a moment. */
  function Upto(log: seq<Mark>, moment: nat): seq<Mark>
    decreases |log|
  {
    if log == [] || Last(log).at <= moment then log else Upto(Init(log), moment)
  }

  /** How many were in flight at a moment; a call is in flight from its beginning until before its end. */
  function LevelAt(log: seq<Mark>, moment: nat): nat { Level(Upto(log, moment)) }

  predicate Ordered(log: seq<Mark>, now: nat) {
    && (forall i, j :: 0 <= i < j < |log| ==> log[i].at <= log[j].at)
    && (forall i :: 0 <= i < |log| ==> log[i].at <= now)
  }

  function CallsAfter(log: seq<Mark>): Calls
    decreases |log|
  {
    if log == [] then Calls(0, 0, None)
    else if Last(log).begins then Begin(CallsAfter(Init(log)), Last(log).at)
    else End(CallsAfter(Init(log)))
  }

  function RequestsAfter(log: seq<Mark>, start: nat): Requests
    decreases |log|
  {
    if log == [] then Requests(0, Some(start))
    else if Last(log).begins then Enter(RequestsAfter(Init(log), start))
    else Leave(RequestsAfter(Init(log), start), Last(log).at)
  }

  function Started(log: seq<Mark>): nat
    decreases |log|
  {
    if log == [] then 0 else Started(Init(log)) + if Last(log).begins then 1 else 0
  }

  /** Over every history the tracker counts what is in flight and what was started, and its timestamp is
      a moment since which some call has been in flight without interruption. */
  lemma {:induction false} BusyThroughout(log: seq<Mark>, now: nat)
    requires Ordered(log, now)
    ensures CallsAfter(log).inFlight == Level(log) && CallsAfter(log).started == Started(log)
    ensures CallsAfter(log).busySince.Some? <==> Level(log) > 0
    ensures CallsAfter(log).busySince.Some? ==>
              CallsAfter(log).busySince.value <= now &&
              forall moment :: moment >= CallsAfter(log).busySince.value ==> LevelAt(log, moment) > 0
    decreases |log|
  {
    if log != [] {
      BusyThroughout(Init(log), Last(log).at);
      var c := CallsAfter(log);
      if c.busySince.Some? {
        forall moment | moment >= c.busySince.value ensures LevelAt(log, moment) > 0 {
          if moment < Last(log).at { assert LevelAt(log, moment) == LevelAt(Init(log), moment); }
        }
      }
    }
  }

  /** Over every history the ingress counts what is in flight, and its timestamp is a moment since which
      no request has been in flight. */
  lemma {:induction false} IdleThroughout(log: seq<Mark>, start: nat, now: nat)
    requires Ordered(log, now) && start <= now && (log != [] ==> start <= log[0].at)
    ensures RequestsAfter(log, start).inFlight == Level(log)
    ensures RequestsAfter(log, start).idleSince.Some? <==> Level(log) == 0
    ensures RequestsAfter(log, start).idleSince.Some? ==>
              RequestsAfter(log, start).idleSince.value <= now &&
              forall moment :: moment >= RequestsAfter(log, start).idleSince.value ==> LevelAt(log, moment) == 0
    decreases |log|
  {
    if log != [] {
      IdleThroughout(Init(log), start, Last(log).at);
    }
  }

  /** Since `from` some call has been in flight without interruption, not even between two marks of the same
      instant: every part of the history that was all of it at some moment after `from` leaves some. */
  ghost predicate Unbroken(log: seq<Mark>, from: int) {
    forall j :: 0 <= j <= |log| && (j < |log| ==> log[j].at > from) ==> Level(log[..j]) > 0
  }

  lemma UnbrokenNow(log: seq<Mark>, now: nat, from: int)
    requires Ordered(log, now) && (log == [] || Last(log).at <= from)
    ensures Unbroken(log, from) <==> Level(log) > 0
  {
    assert log[..|log|] == log;
  }

  lemma UnbrokenNext(log: seq<Mark>, from: int)
    requires log != [] && Last(log).at > from
    ensures Unbroken(log, from) <==> Unbroken(Init(log), from) && Level(log) > 0
  {
    hide Level;
    assert log[..|log|] == log && Init(log)[..|Init(log)|] == Init(log);
    assert forall j :: 0 <= j <= |Init(log)| ==> Init(log)[..j] == log[..j];
    if Unbroken(log, from) {
      forall j | 0 <= j <= |Init(log)| && (j < |Init(log)| ==> Init(log)[j].at > from)
        ensures Level(Init(log)[..j]) > 0
      {
        assert Level(log[..j]) > 0;
      }
      assert Level(log[..|log|]) > 0;
    }
    if Unbroken(Init(log), from) && Level(log) > 0 {
      forall j | 0 <= j <= |log| && (j < |log| ==> log[j].at > from) ensures Level(log[..j]) > 0 {
        if j < |log| { assert Level(Init(log)[..j]) > 0; }
      }
    }
  }

  /** The tracker's timestamp is the earliest moment since which calls have been in flight without
      interruption. */
  lemma {:induction false} BusySinceIff(log: seq<Mark>, now: nat, from: int)
    requires Ordered(log, now)
    ensures var since := CallsAfter(log).busySince; since.Some? && since.value <= from <==> Unbroken(log, from)
    decreases |log|
  {
    hide Unbroken;
    BusyThroughout(log, now);
    if log == [] || Last(log).at <= from {
      if log != [] { BusyThroughout(log, Last(log).at); }
      UnbrokenNow(log, now, from);
    } else {
      BusyThroughout(Init(log), Last(log).at);
      BusySinceIff(Init(log), now, from);
      UnbrokenNext(log, from);
    }
  }

  /** The ingress' timestamp is when the last request ended, or the start if there was none. */
  lemma IdleSinceIff(log: seq<Mark>, start: nat, now: nat)
    requires Ordered(log, now) && start <= now && (log != [] ==> start <= log[0].at)
    ensures RequestsAfter(log, start).idleSince ==
            if Level(log) > 0 then None else Some(if log == [] then start else Last(log).at)
  {
    IdleThroughout(log, start, now);
  }

  // ---------------------------------------------------------------- the age of the oldest call

  datatype Call = Call(id: nat, at: nat, begins: bool)

  /** The same history without the identities, which is all the tracker sees. */
  function Anonymous(log: seq<Call>): (marks: seq<Mark>)
    ensures |marks| == |log| && forall i :: 0 <= i < |log| ==> marks[i] == Mark(log[i].at, log[i].begins)
  {
    seq(|log|, i requires 0 <= i < |log| => Mark(log[i].at, log[i].begins))
  }

  /** The calls in flight with the moments they began. */
  function Flights(log: seq<Call>): map<nat, nat>
    decreases |log|
  {
    if log == [] then map[]
    else
      var before, last := Flights(log[..|log| - 1]), log[|log| - 1];
      if last.begins then before[last.id := last.at] else before - {last.id}
  }

  /** A call begins once, under an id of its own, and ends at most once; the clock does not run back. */
  ghost predicate Proper(log: seq<Call>)
    decreases |log|
  {
    log == [] ||
    (var before, last := log[..|log| - 1], log[|log| - 1];
     && Proper(before)
     && (if last.begins then forall i :: 0 <= i < |before| ==> before[i].id != last.id else last.id in Flights(before))
     && (forall i :: 0 <= i < |before| ==> before[i].at <= last.at))
  }

  /** The last call that began while none was in flight. */
  function Opener(log: seq<Call>): Option<Call>
    decreases |log|
  {
    if log == [] then None
    else
      var before, last := log[..|log| - 1], log[|log| - 1];
      if last.begins && Flights(before) == map[] then Some(last) else Opener(before)
  }

  ghost predicate IsOldest(flights: map<nat, nat>, begun: nat) {
    (exists id :: id in flights && flights[id] == begun) && (forall id :: id in flights ==> begun <= flights[id])
  }

  /** The begin mark of a call in flight. */
  lemma {:induction false} FlightFrom(log: seq<Call>, id: nat) returns (i: nat)
    requires Proper(log) && id in Flights(log)
    ensures i < |log| && log[i] == Call(id, Flights(log)[id], true)
    decreases |log|
  {
    var last := log[|log| - 1];
    if last.begins && last.id == id { i := |log| - 1; } else { i := FlightFrom(log[..|log| - 1], id); }
  }

  lemma {:induction false} OpenerFrom(log: seq<Call>) returns (i: nat)
    requires Opener(log).Some?
    ensures i < |log| && log[i] == Opener(log).value && log[i].begins
    decreases |log|
  {
    var before, last := log[..|log| - 1], log[|log| - 1];
    if last.begins && Flights(before) == map[] { i := |log| - 1; } else { i := OpenerFrom(before); }
  }

  lemma NewIsNotInFlight(log: seq<Call>)
    requires Proper(log) && log != [] && log[|log| - 1].begins
    ensures log[|log| - 1].id !in Flights(log[..|log| - 1])
  {
    var before := log[..|log| - 1];
    if log[|log| - 1].id in Flights(before) { var i := FlightFrom(before, log[|log| - 1].id); }
  }

  /** The tracker counts the calls in flight, and its timestamp is the opener's beginning, before which no
      call in flight began. */
  lemma {:induction false} BusySinceOpener(log: seq<Call>, now: nat)
    requires Proper(log) && (forall i :: 0 <= i < |log| ==> log[i].at <= now)
    ensures var c := CallsAfter(Anonymous(log));
            && c.inFlight == |Flights(log)|
            && (c.busySince.Some? <==> c.inFlight > 0)
            && (c.busySince.Some? ==>
                  && Opener(log).Some? && Opener(log).value.at == c.busySince.value <= now
                  && (forall id :: id in Flights(log) ==> c.busySince.value <= Flights(log)[id]))
    decreases |log|
  {
    if log != [] {
      var before := log[..|log| - 1];
      BusySinceOpener(before, log[|log| - 1].at);
      assert Init(Anonymous(log)) == Anonymous(before);
      if log[|log| - 1].begins { NewIsNotInFlight(log); }
    }
  }

  /** The status calls its figure the age of the oldest call in flight. What is reported is never less, and
      it is that age if and only if the call that found none in flight has not ended, or another in flight
      began at the same instant. */
  lemma ReportsOldestIff(log: seq<Call>)
    requires Proper(log) && CallsAfter(Anonymous(log)).busySince.Some?
    ensures Opener(log).Some?
    ensures var since, opener := CallsAfter(Anonymous(log)).busySince.value, Opener(log).value;
            && (forall id :: id in Flights(log) ==> since <= Flights(log)[id])
            && (IsOldest(Flights(log), since) <==>
                  opener.id in Flights(log) || exists id :: id in Flights(log) && Flights(log)[id] == opener.at)
  {
    BusySinceOpener(log, log[|log| - 1].at);
    if Opener(log).value.id in Flights(log) { OpenerBegan(log); }
  }

  /** Ids are not used twice, so the opener in flight is the opener itself. */
  lemma OpenerBegan(log: seq<Call>)
    requires Proper(log) && Opener(log).Some? && Opener(log).value.id in Flights(log)
    ensures Flights(log)[Opener(log).value.id] == Opener(log).value.at
  {
    var i := FlightFrom(log, Opener(log).value.id);
    var j := OpenerFrom(log);
    BeginsOnce(log, i, j);
  }

  lemma {:induction false} BeginsOnce(log: seq<Call>, i: nat, j: nat)
    requires Proper(log) && i < |log| && j < |log| && log[i].begins && log[j].begins && log[i].id == log[j].id
    ensures i == j
    decreases |log|
  {
    var before := log[..|log| - 1];
    if i < |before| && j < |before| { BeginsOnce(before, i, j); }
  }

  /** With a clock that tells beginnings apart: exactly while the opener has not ended. */
  lemma ReportsOldestWhileOpenerRuns(log: seq<Call>)
    requires Proper(log) && CallsAfter(Anonymous(log)).busySince.Some?
    requires forall i, j :: 0 <= i < j < |log| && log[i].begins && log[j].begins ==> log[i].at < log[j].at
    ensures Opener(log).Some?
    ensures IsOldest(Flights(log), CallsAfter(Anonymous(log)).busySince.value) <==> Opener(log).value.id in Flights(log)
  {
    ReportsOldestIff(log);
    var j := OpenerFrom(log);
    forall id | id in Flights(log) && Flights(log)[id] == Opener(log).value.at ensures id == Opener(log).value.id {
      var i := FlightFrom(log, id);
    }
  }

  /** Two calls that overlap: the first has ended, and its beginning is still reported. */
  lemma OverlapReportsEnded()
    ensures var log := [Call(0, 0, true), Call(1, 5, true), Call(0, 6, false)];
            Proper(log) && Flights(log) == map[1 := 5] && CallsAfter(Anonymous(log)).busySince == Some(0)
  {
    var log := [Call(0, 0, true), Call(1, 5, true), Call(0, 6, false)];
    var two, one := [Call(0, 0, true), Call(1, 5, true)], [Call(0, 0, true)];
    assert log[..|log| - 1] == two && two[..|two| - 1] == one && one[..|one| - 1] == [];
    assert Proper(one) && Flights(one) == map[0 := 0];
    assert Proper(two) && Flights(two) == map[0 := 0, 1 := 5];
    assert Init(Anonymous(log)) == Anonymous(two) && Init(Anonymous(two)) == Anonymous(one)
        && Init(Anonymous(one)) == [];
    assert CallsAfter(Anonymous(one)) == Calls(1, 1, Some(0));
    assert CallsAfter(Anonymous(two)) == Calls(2, 2, Some(0));
  }

  // ---------------------------------------------------------------- the objects

  lemma OrderedLater(log: seq<Mark>, prev: nat, now: nat)
    requires Ordered(log, prev) && prev <= now
    ensures Ordered(log, now)
  {
  }

  lemma Marked(log: seq<Mark>, prev: nat, now: nat, begins: bool)
    requires Ordered(log, prev) && prev <= now
    ensures var log' := log + [Mark(now, begins)];
            && Ordered(log', now)
            && CallsAfter(log') == (if begins then Begin(CallsAfter(log), now) else End(CallsAfter(log)))
            && Level(log') == if begins then Level(log) + 1 else if Level(log) > 0 then Level(log) - 1 else 0
  {
  }

  datatype Status = Status(invocations: nat, tool: Calls, model: Calls, toolBlockedMillis: int,
                           modelBlockedMillis: int, idleMillis: int)

  /** When the history ends; an empty one when it starts. */
  function EndOf(log: seq<Mark>, start: nat): nat { if log == [] then start else Last(log).at }

  function Later(a: nat, b: nat): nat { if a < b then b else a }

  /** When anything last happened. */
  function LastOf(start: nat, runs: seq<Mark>, tools: seq<Mark>, models: seq<Mark>): nat {
    Later(EndOf(runs, start), Later(EndOf(tools, start), EndOf(models, start)))
  }

  /** The longest stretch up to now, in whole milliseconds, throughout which some call was in flight. */
  ghost predicate Longest(log: seq<Mark>, now: nat, millis: int) {
    if Level(log) == 0 then millis == 0
    else millis >= 0 && Unbroken(log, now - millis * MILLI) && !Unbroken(log, now - (millis + 1) * MILLI)
  }

  lemma BlockedIsLongest(log: seq<Mark>, prev: nat, now: nat)
    requires Ordered(log, prev) && prev <= now
    ensures Longest(log, now, BlockedMillis(CallsAfter(log), now))
  {
    var millis := BlockedMillis(CallsAfter(log), now);
    BusyThroughout(log, prev);
    BusySinceIff(log, prev, now - millis * MILLI);
    BusySinceIff(log, prev, now - (millis + 1) * MILLI);
  }

  lemma NowIsLast(start: nat, runs: seq<Mark>, tools: seq<Mark>, models: seq<Mark>, prev: nat, now: nat, begins: bool)
    requires Ordered(runs, prev) && Ordered(tools, prev) && Ordered(models, prev) && start <= prev <= now
    ensures var m := [Mark(now, begins)];
            && LastOf(start, runs + m, tools, models) == now
            && LastOf(start, runs, tools + m, models) == now
            && LastOf(start, runs, tools, models + m) == now
  {
  }

  class Tracker {
    var invocations: nat
    var toolCalls: nat
    var toolCallsTotal: nat
    var modelCalls: nat
    var modelCallsTotal: nat
    var toolBusySince: Option<nat>
    var modelBusy: Option<nat>
    var lastActivity: nat

    /** The invocations, tool calls and model calls since the start. */
    ghost const start: nat
    ghost var runLog: seq<Mark>
    ghost var toolLog: seq<Mark>
    ghost var modelLog: seq<Mark>

    ghost predicate Valid(now: nat)
      reads this
    {
      && Ordered(runLog, now) && Ordered(toolLog, now) && Ordered(modelLog, now) && start <= now
      && invocations == Level(runLog) && lastActivity == LastOf(start, runLog, toolLog, modelLog)
      && Calls(toolCalls, toolCallsTotal, toolBusySince) == CallsAfter(toolLog)
      && Calls(modelCalls, modelCallsTotal, modelBusy) == CallsAfter(modelLog)
    }

    constructor (now: nat)
      ensures Valid(now) && start == now && runLog == [] && toolLog == [] && modelLog == []
    {
      invocations, toolCalls, toolCallsTotal, modelCalls, modelCallsTotal := 0, 0, 0, 0, 0;
      toolBusySince, modelBusy, lastActivity := None, None, now;
      start, runLog, toolLog, modelLog := now, [], [], [];
    }

    method BeforeRun(ghost prev: nat, now: nat)
      requires Valid(prev) && prev <= now
      modifies this`invocations, this`lastActivity, this`runLog
      ensures Valid(now) && runLog == old(runLog) + [Mark(now, true)]
    {
      hide CallsAfter, Ordered, Level, LastOf;
      OrderedLater(toolLog, prev, now);
      OrderedLater(modelLog, prev, now);
      Marked(runLog, prev, now, true);
      NowIsLast(start, runLog, toolLog, modelLog, prev, now, true);
      invocations := invocations + 1;
      lastActivity := now;
      runLog := runLog + [Mark(now, true)];
    }

    method AfterRun(ghost prev: nat, now: nat)
      requires Valid(prev) && prev <= now
      modifies this`invocations, this`lastActivity, this`runLog
      ensures Valid(now) && runLog == old(runLog) + [Mark(now, false)]
    {
      hide CallsAfter, Ordered, Level, LastOf;
      OrderedLater(toolLog, prev, now);
      OrderedLater(modelLog, prev, now);
      Marked(runLog, prev, now, false);
      NowIsLast(start, runLog, toolLog, modelLog, prev, now, false);
      if invocations > 0 {
        invocations := invocations - 1;
      }
      lastActivity := now;
      runLog := runLog + [Mark(now, false)];
    }

    method BeforeTool(ghost prev: nat, now: nat)
      requires Valid(prev) && prev <= now
      modifies this
      ensures Valid(now) && toolLog == old(toolLog) + [Mark(now, true)] && modelLog == old(modelLog)
              && runLog == old(runLog)
    {
      hide CallsAfter, Ordered, Level, LastOf;
      OrderedLater(modelLog, prev, now);
      OrderedLater(runLog, prev, now);
      Marked(toolLog, prev, now, true);
      NowIsLast(start, runLog, toolLog, modelLog, prev, now, true);
      if toolCalls == 0 {
        toolBusySince := Some(now);
      }
      toolCalls := toolCalls + 1;
      toolCallsTotal := toolCallsTotal + 1;
      lastActivity := now;
      toolLog := toolLog + [Mark(now, true)];
    }

    method AfterTool(ghost prev: nat, now: nat)
      requires Valid(prev) && prev <= now
      modifies this
      ensures Valid(now) && toolLog == old(toolLog) + [Mark(now, false)] && modelLog == old(modelLog)
              && runLog == old(runLog)
    {
      hide CallsAfter, Ordered, Level, LastOf;
      OrderedLater(modelLog, prev, now);
      OrderedLater(runLog, prev, now);
      Marked(toolLog, prev, now, false);
      NowIsLast(start, runLog, toolLog, modelLog, prev, now, false);
      if toolCalls > 0 {
        toolCalls := toolCalls - 1;
      }
      if toolCalls == 0 {
        toolBusySince := None;
      }
      lastActivity := now;
      toolLog := toolLog + [Mark(now, false)];
    }

    method BeforeModel(ghost prev: nat, now: nat)
      requires Valid(prev) && prev <= now
      modifies this
      ensures Valid(now) && modelLog == old(modelLog) + [Mark(now, true)] && toolLog == old(toolLog)
              && runLog == old(runLog)
    {
      hide CallsAfter, Ordered, Level, LastOf;
      OrderedLater(toolLog, prev, now);
      OrderedLater(runLog, prev, now);
      Marked(modelLog, prev, now, true);
      NowIsLast(start, runLog, toolLog, modelLog, prev, now, true);
      if modelCalls == 0 {
        modelBusy := Some(now);
      }
      modelCalls := modelCalls + 1;
      modelCallsTotal := modelCallsTotal + 1;
      lastActivity := now;
      modelLog := modelLog + [Mark(now, true)];
    }

    method AfterModel(ghost prev: nat, now: nat)
      requires Valid(prev) && prev <= now
      modifies this
      ensures Valid(now) && modelLog == old(modelLog) + [Mark(now, false)] && toolLog == old(toolLog)
              && runLog == old(runLog)
    {
      hide CallsAfter, Ordered, Level, LastOf;
      OrderedLater(toolLog, prev, now);
      OrderedLater(runLog, prev, now);
      Marked(modelLog, prev, now, false);
      NowIsLast(start, runLog, toolLog, modelLog, prev, now, false);
      if modelCalls > 0 {
        modelCalls := modelCalls - 1;
      }
      if modelCalls == 0 {
        modelBusy := None;
      }
      lastActivity := now;
      modelLog := modelLog + [Mark(now, false)];
    }

    /** What is reported in terms of the history: how many calls are in flight and were started; the longest
        stretch up to now during which some call was in flight at every moment; and while nothing is in
        flight, how long ago anything last happened. */
    method Snapshot(ghost prev: nat, now: nat) returns (st: Status)
      requires Valid(prev) && prev <= now
      ensures st.invocations == Level(runLog)
      ensures st.tool == CallsAfter(toolLog) && st.model == CallsAfter(modelLog)
      ensures st.tool.inFlight == Level(toolLog) && st.tool.started == Started(toolLog)
      ensures st.model.inFlight == Level(modelLog) && st.model.started == Started(modelLog)
      ensures Longest(toolLog, now, st.toolBlockedMillis) && Longest(modelLog, now, st.modelBlockedMillis)
      ensures forall moment: nat ::
                now - st.toolBlockedMillis * MILLI <= moment <= now && st.toolBlockedMillis > 0 ==>
                LevelAt(toolLog, moment) > 0
      ensures forall moment: nat ::
                now - st.modelBlockedMillis * MILLI <= moment <= now && st.modelBlockedMillis > 0 ==>
                LevelAt(modelLog, moment) > 0
      ensures st.idleMillis == if Level(runLog) == 0 && Level(toolLog) == 0 && Level(modelLog) == 0
                               then (now - LastOf(start, runLog, toolLog, modelLog)) / MILLI else 0
    {
      hide Longest;
      BusyThroughout(toolLog, prev);
      BusyThroughout(modelLog, prev);
      BlockedIsLongest(toolLog, prev, now);
      BlockedIsLongest(modelLog, prev, now);
      var toolMillis, modelMillis, idleMillis := 0, 0, 0;
      if toolBusySince.Some? {
        toolMillis := (now - toolBusySince.value) / MILLI;
      }
      if modelBusy.Some? {
        modelMillis := (now - modelBusy.value) / MILLI;
      }
      if invocations == 0 && toolCalls + modelCalls == 0 {
        idleMillis := (now - lastActivity) / MILLI;
      }
      st := Status(invocations, Calls(toolCalls, toolCallsTotal, toolBusySince),
                   Calls(modelCalls, modelCallsTotal, modelBusy),
                   toolMillis, modelMillis, idleMillis);
    }
  }

  class Ingress {
    var inFlight: nat
    var idleSince: Option<nat>
    ghost const start: nat
    ghost var log: seq<Mark>

    ghost predicate Valid(now: nat)
      reads this
    {
      && Ordered(log, now) && start <= now && (log != [] ==> start <= log[0].at)
      && Requests(inFlight, idleSince) == RequestsAfter(log, start)
    }

    constructor (now: nat)
      ensures Valid(now) && log == [] && start == now
    {
      inFlight, idleSince, start, log := 0, Some(now), now, [];
    }

    method EnterRequest(ghost prev: nat, now: nat)
      requires Valid(prev) && prev <= now
      modifies this
      ensures Valid(now) && log == old(log) + [Mark(now, true)]
    {
      inFlight := inFlight + 1;
      idleSince := None;
      log := log + [Mark(now, true)];
      assert Init(log) == old(log);
    }

    method ExitRequest(ghost prev: nat, now: nat)
      requires Valid(prev) && prev <= now
      modifies this
      ensures Valid(now) && log == old(log) + [Mark(now, false)]
    {
      if inFlight > 0 {
        inFlight := inFlight - 1;
      }
      if inFlight == 0 {
        idleSince := Some(now);
      }
      log := log + [Mark(now, false)];
      assert Init(log) == old(log);
    }

    /** The reported duration is the time since the last request ended, none being in flight: a stretch up to
        now without any, and the longest. */
    method IdleDuration(ghost prev: nat, now: nat) returns (d: int)
      requires Valid(prev) && prev <= now
      ensures d == IdleFor(RequestsAfter(log, start), now)
      ensures d == if Level(log) > 0 then 0 else now - EndOf(log, start)
      ensures forall moment: nat :: now - d <= moment <= now && d > 0 ==> LevelAt(log, moment) == 0
    {
      IdleThroughout(log, start, prev);
      IdleSinceIff(log, start, prev);
      if inFlight > 0 || idleSince.None? {
        return 0;
      }
      d := now - idleSince.value;
    }
  }
}
