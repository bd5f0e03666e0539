/** The broker's session table and the tunnels' registers under every interleaving of their goroutines
    (internal/broker/broker.go, session.go, tunnelconn.go). Every critical section is one step; the steps of one
    tunnel's frame loop, and of its detachAll afterwards, are in program order. */
module Binding {
  import opened Streams

  /** A session object: its id, the tunnel it is bound to, and how far its destruction has come. */
  datatype Obj = Obj(key: nat, tconn: Option<nat>, dead: bool, removed: bool)

  /** Where a tunnel's goroutine is: between frames, about to bind a session, between the two halves of
      bind, or draining the sessions that detachAll has taken out of the register. */
  datatype Phase = Serving | ToBind(o: nat) | MidBind(o: nat) | Draining(rest: set<nat>)

  datatype Tun = Tun(register: map<nat, nat>, phase: Phase)

  datatype State = State(objs: seq<Obj>, table: map<nat, nat>, tuns: seq<Tun>)

  datatype Action =
    | Accept                          // a tunnel connects
    | Create(t: nat, key: nat)        // openSession inserts a new session
    | Lookup(t: nat, key: nat)        // attachSession finds one
    | SetConn(t: nat)                 // first half of bind
    | Register(t: nat)                // second half of bind
    | Exit(t: nat)                    // the frame loop ends: detachAll takes the register
    | DetachOne(t: nat, o: nat)       // one iteration of detachAll
    | WriteFails(o: nat, t: nat)      // detach after a failed write on tunnel t, however late
    | Die(o: nat)                     // first half of destroy
    | Remove(o: nat)                  // second half: delete whatever the table holds under the key

  const INIT: State := State([], map[], [])

  predicate Enabled(s: State, a: Action) {
    match a
    case Accept => true
    case Create(t, key) => t < |s.tuns| && s.tuns[t].phase.Serving? && key !in s.table
    case Lookup(t, key) => t < |s.tuns| && s.tuns[t].phase.Serving? && key in s.table
    case SetConn(t) => t < |s.tuns| && s.tuns[t].phase.ToBind? && s.tuns[t].phase.o < |s.objs|
    case Register(t) => t < |s.tuns| && s.tuns[t].phase.MidBind? && s.tuns[t].phase.o < |s.objs|
    case Exit(t) => t < |s.tuns| && s.tuns[t].phase.Serving?
    case DetachOne(t, o) => t < |s.tuns| && s.tuns[t].phase.Draining? && o in s.tuns[t].phase.rest && o < |s.objs|
    case WriteFails(o, t) => o < |s.objs|
    case Die(o) => o < |s.objs| && !s.objs[o].dead
    case Remove(o) => o < |s.objs| && s.objs[o].dead && !s.objs[o].removed
  }

  function Detached(o: Obj, t: nat): Obj { if o.tconn == Some(t) then o.(tconn := None) else o }

  function Step(s: State, a: Action): State
    requires Enabled(s, a)
  {
    match a
    case Accept => s.(tuns := s.tuns + [Tun(map[], Serving)])
    case Create(t, key) =>
      var o := |s.objs|;
      State(s.objs + [Obj(key, None, false, false)], s.table[key := o], s.tuns[t := s.tuns[t].(phase := ToBind(o))])
    case Lookup(t, key) => s.(tuns := s.tuns[t := s.tuns[t].(phase := ToBind(s.table[key]))])
    case SetConn(t) =>
      var o := s.tuns[t].phase.o;
      s.(objs := s.objs[o := s.objs[o].(tconn := Some(t))], tuns := s.tuns[t := s.tuns[t].(phase := MidBind(o))])
    case Register(t) =>
      var o := s.tuns[t].phase.o;
      s.(tuns := s.tuns[t := Tun(s.tuns[t].register[s.objs[o].key := o], Serving)])
    case Exit(t) => s.(tuns := s.tuns[t := Tun(map[], Draining(s.tuns[t].register.Values))])
    case DetachOne(t, o) =>
      s.(objs := s.objs[o := Detached(s.objs[o], t)],
         tuns := s.tuns[t := s.tuns[t].(phase := Draining(s.tuns[t].phase.rest - {o}))])
    case WriteFails(o, t) => s.(objs := s.objs[o := Detached(s.objs[o], t)])
    case Die(o) => s.(objs := s.objs[o := s.objs[o].(dead := true)])
    case Remove(o) => s.(objs := s.objs[o := s.objs[o].(removed := true)], table := s.table - {s.objs[o].key})
  }

  // ---------------------------------------------------------------- the invariant

  /** An object is in the table under its key exactly from its creation to its removal. */
  predicate Tabled(objs: seq<Obj>, table: map<nat, nat>) {
    && (forall k :: k in table ==> table[k] < |objs| && objs[table[k]].key == k && !objs[table[k]].removed)
    && (forall o :: 0 <= o < |objs| && !objs[o].removed ==> objs[o].key in table && table[objs[o].key] == o)
    && (forall o :: 0 <= o < |objs| && objs[o].removed ==> objs[o].dead)
  }

  /** The tunnel knows the object: registered, about to be, or still to be detached. */
  predicate Knows(t: Tun, o: nat, key: nat) {
    match t.phase
    case MidBind(p) => p == o || (key in t.register && t.register[key] == o)
    case Draining(rest) => o in rest
    case _ => key in t.register && t.register[key] == o
  }

  /** What tunnel `t` has to know, given the objects. */
  predicate TunOk(t: nat, tun: Tun, objs: seq<Obj>) {
    && (forall k :: k in tun.register ==> tun.register[k] < |objs| && objs[tun.register[k]].key == k)
    && (tun.phase.Draining? ==> tun.register == map[] && (forall o :: o in tun.phase.rest ==> o < |objs|))
    && (tun.phase.ToBind? || tun.phase.MidBind? ==> tun.phase.o < |objs|)
    && (forall o :: 0 <= o < |objs| && !objs[o].dead && objs[o].tconn == Some(t) ==> Knows(tun, o, objs[o].key))
    // While it binds an object, no other live object of that key is bound to the tunnel.
    && (tun.phase.ToBind? || tun.phase.MidBind? ==>
          forall o ::
            0 <= o < |objs| && !objs[o].dead && objs[o].tconn == Some(t) && objs[o].key == objs[tun.phase.o].key ==>
              o == tun.phase.o)
  }

  predicate Consistent(s: State) {
    && Tabled(s.objs, s.table)
    && (forall t :: 0 <= t < |s.tuns| ==> TunOk(t, s.tuns[t], s.objs))
    && (forall o :: 0 <= o < |s.objs| && s.objs[o].tconn.Some? ==> s.objs[o].tconn.value < |s.tuns|)
  }

  /** No object has become live and bound to `t`, and none has changed its key. */
  predicate NoneNew(t: nat, objs: seq<Obj>, objs': seq<Obj>) {
    && |objs| <= |objs'|
    && (forall o :: 0 <= o < |objs| ==> objs'[o].key == objs[o].key)
    && (forall o :: 0 <= o < |objs'| && !objs'[o].dead && objs'[o].tconn == Some(t) ==>
          o < |objs| && !objs[o].dead && objs[o].tconn == Some(t))
  }

  lemma StaysOk(t: nat, tun: Tun, objs: seq<Obj>, objs': seq<Obj>)
    requires TunOk(t, tun, objs) && NoneNew(t, objs, objs')
    ensures TunOk(t, tun, objs')
  {
  }

  lemma AcceptConsistent(s: State)
    requires Consistent(s)
    ensures Consistent(Step(s, Accept))
  {
  }

  lemma CreateConsistent(s: State, t: nat, key: nat)
    requires Consistent(s) && Enabled(s, Create(t, key))
    ensures Consistent(Step(s, Create(t, key)))
  {
    var s' := Step(s, Create(t, key));
    forall u | 0 <= u < |s.tuns| ensures TunOk(u, s'.tuns[u], s'.objs) {
      assert TunOk(u, s.tuns[u], s.objs);
      StaysOk(u, s.tuns[u], s.objs, s'.objs);
    }
  }

  lemma LookupConsistent(s: State, t: nat, key: nat)
    requires Consistent(s) && Enabled(s, Lookup(t, key))
    ensures Consistent(Step(s, Lookup(t, key)))
  {
  }

  lemma SetConnConsistent(s: State, t: nat)
    requires Consistent(s) && Enabled(s, SetConn(t))
    ensures Consistent(Step(s, SetConn(t)))
  {
    var s' := Step(s, SetConn(t));
    forall u | 0 <= u < |s.tuns| ensures TunOk(u, s'.tuns[u], s'.objs) {
      assert TunOk(u, s.tuns[u], s.objs);
      if u != t { StaysOk(u, s.tuns[u], s.objs, s'.objs); }
    }
  }

  lemma RegisterConsistent(s: State, t: nat)
    requires Consistent(s) && Enabled(s, Register(t))
    ensures Consistent(Step(s, Register(t)))
  {
    assert TunOk(t, s.tuns[t], s.objs);
  }

  lemma ExitConsistent(s: State, t: nat)
    requires Consistent(s) && Enabled(s, Exit(t))
    ensures Consistent(Step(s, Exit(t)))
  {
    assert TunOk(t, s.tuns[t], s.objs);
  }

  lemma DetachOneConsistent(s: State, t: nat, o: nat)
    requires Consistent(s) && Enabled(s, DetachOne(t, o))
    ensures Consistent(Step(s, DetachOne(t, o)))
  {
    var s' := Step(s, DetachOne(t, o));
    forall u | 0 <= u < |s.tuns| ensures TunOk(u, s'.tuns[u], s'.objs) {
      assert TunOk(u, s.tuns[u], s.objs);
      StaysOk(u, s.tuns[u], s.objs, s'.objs);
    }
  }

  /** The steps of a session that give no binding. */
  lemma ObjectConsistent(s: State, a: Action)
    requires Consistent(s) && Enabled(s, a) && (a.WriteFails? || a.Die? || a.Remove?)
    ensures Consistent(Step(s, a))
  {
    var s' := Step(s, a);
    forall u | 0 <= u < |s.tuns| ensures TunOk(u, s'.tuns[u], s'.objs) {
      StaysOk(u, s.tuns[u], s.objs, s'.objs);
    }
  }

  lemma StepConsistent(s: State, a: Action)
    requires Consistent(s) && Enabled(s, a)
    ensures Consistent(Step(s, a))
  {
    hide Consistent, Step, Enabled;
    match a
    case Accept => AcceptConsistent(s);
    case Create(t, key) => CreateConsistent(s, t, key);
    case Lookup(t, key) => LookupConsistent(s, t, key);
    case SetConn(t) => SetConnConsistent(s, t);
    case Register(t) => RegisterConsistent(s, t);
    case Exit(t) => ExitConsistent(s, t);
    case DetachOne(t, o) => DetachOneConsistent(s, t, o);
    case WriteFails(_, _) => ObjectConsistent(s, a);
    case Die(_) => ObjectConsistent(s, a);
    case Remove(_) => ObjectConsistent(s, a);
  }

  // ---------------------------------------------------------------- every run

  ghost predicate Legal(s: State, run: seq<Action>)
    decreases |run|
  {
    run == [] || (Enabled(s, run[0]) && Legal(Step(s, run[0]), run[1..]))
  }

  ghost function Exec(s: State, run: seq<Action>): State
    requires Legal(s, run)
    decreases |run|
  {
    if run == [] then s else Exec(Step(s, run[0]), run[1..])
  }

  lemma {:induction false} RunConsistent(s: State, run: seq<Action>)
    requires Consistent(s) && Legal(s, run)
    ensures Consistent(Exec(s, run))
    decreases |run|
  {
    hide Consistent, Step, Enabled;
    if run != [] {
      StepConsistent(s, run[0]);
      RunConsistent(Step(s, run[0]), run[1..]);
    }
  }

  /** In every reachable state a live session is the one that the table holds under its key, and the
      tunnel it is bound to knows it: it is registered there, is just being registered, or is among
      those that the tunnel's detachAll has yet to reach. */
  lemma BoundIsKnown(run: seq<Action>, o: nat)
    requires Legal(INIT, run)
    requires var s := Exec(INIT, run); o < |s.objs| && !s.objs[o].dead
    ensures var s := Exec(INIT, run);
            && s.objs[o].key in s.table && s.table[s.objs[o].key] == o
            && (s.objs[o].tconn.Some? ==>
                  var t := s.objs[o].tconn.value; t < |s.tuns| && Knows(s.tuns[t], o, s.objs[o].key))
  {
    RunConsistent(INIT, run);
    var s := Exec(INIT, run);
    if s.objs[o].tconn.Some? { assert TunOk(s.objs[o].tconn.value, s.tuns[s.objs[o].tconn.value], s.objs); }
  }

  /** A tunnel whose detachAll has finished. */
  predicate Finished(s: State, t: nat) { t < |s.tuns| && s.tuns[t].phase == Draining({}) }

  lemma {:induction false} StaysFinished(s: State, run: seq<Action>, t: nat)
    requires Legal(s, run) && Finished(s, t)
    ensures Finished(Exec(s, run), t)
    decreases |run|
  {
    if run != [] { StaysFinished(Step(s, run[0]), run[1..], t); }
  }

  /** Once a tunnel's detachAll has finished, no live session is ever bound to it again. */
  lemma DetachedForGood(before: seq<Action>, after: seq<Action>, t: nat, o: nat)
    requires Legal(INIT, before) && Finished(Exec(INIT, before), t) && Legal(Exec(INIT, before), after)
    requires var s := Exec(Exec(INIT, before), after); o < |s.objs| && !s.objs[o].dead
    ensures Exec(Exec(INIT, before), after).objs[o].tconn != Some(t)
  {
    RunConsistent(INIT, before);
    RunConsistent(Exec(INIT, before), after);
    StaysFinished(Exec(INIT, before), after, t);
    assert TunOk(t, Exec(Exec(INIT, before), after).tuns[t], Exec(Exec(INIT, before), after).objs);
  }

  lemma OnlyItsTunnelUnbinds(s: State, a: Action, o: nat, t: nat)
    requires Enabled(s, a) && o < |s.objs| && s.objs[o].tconn == Some(t)
    ensures var s' := Step(s, a);
            o < |s'.objs| &&
            (s'.objs[o].tconn == Some(t)
             || (a == DetachOne(t, o) && s'.objs[o].tconn == None)
             || (a == WriteFails(o, t) && s'.objs[o].tconn == None)
             || (a.SetConn? && a.t < |s.tuns| && s.tuns[a.t].phase == ToBind(o) && s'.objs[o].tconn == Some(a.t)))
  {
  }

  /** The run neither detaches `o` from `t`, by detachAll or after a failed write on `t`, nor binds it anew. */
  ghost predicate LeavesBound(s: State, run: seq<Action>, o: nat, t: nat)
    requires Legal(s, run)
    decreases |run|
  {
    run == [] ||
    (&& run[0] != DetachOne(t, o) && run[0] != WriteFails(o, t)
     && !(run[0].SetConn? && s.tuns[run[0].t].phase == ToBind(o))
     && LeavesBound(Step(s, run[0]), run[1..], o, t))
  }

  /** Over any run, a session stays bound to a tunnel until that tunnel's own detachAll or failed write, or a
      newer bind: whatever old tunnels do late, and whatever becomes of other sessions, leaves it alone. */
  lemma {:induction false} StaysBound(s: State, run: seq<Action>, o: nat, t: nat)
    requires Legal(s, run) && o < |s.objs| && s.objs[o].tconn == Some(t) && LeavesBound(s, run, o, t)
    ensures o < |Exec(s, run).objs| && Exec(s, run).objs[o].tconn == Some(t)
    decreases |run|
  {
    hide Step, Enabled;
    if run != [] {
      OnlyItsTunnelUnbinds(s, run[0], o, t);
      StaysBound(Step(s, run[0]), run[1..], o, t);
    }
  }

  /** The second half of destroy deletes by key, yet in every reachable state what it deletes is the
      dying object itself: a newer incarnation of the key can only come after it. */
  lemma RemoveEvictsItself(run: seq<Action>, o: nat)
    requires Legal(INIT, run) && Enabled(Exec(INIT, run), Remove(o))
    ensures var s := Exec(INIT, run);
            && s.objs[o].key in s.table && s.table[s.objs[o].key] == o
            && (forall k :: k in s.table && s.table[k] != o ==> k in Step(s, Remove(o)).table)
  {
    RunConsistent(INIT, run);
  }
}
