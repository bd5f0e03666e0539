/** The broker's session table and a tunnel's register as objects (internal/broker/broker.go and
    tunnelconn.go): a frame reaches its own session only, and detachAll reaches all of its own. */
module Tables {
  import opened Streams
  import opened Messages
  import opened SessionObjects
  import opened Protocol
  import B = BrokerSessions

  class TunnelConn {
    const id: nat
    var sessions: map<nat, Session>

    constructor (id: nat)
      ensures this.id == id && sessions == map[]
    {
      this.id, sessions := id, map[];
    }

    method Register(sid: nat, s: Session)
      modifies this
      ensures sessions == old(sessions)[sid := s]
    {
      sessions := sessions[sid := s];
    }

    /** Every registered session that is still bound to this tunnel is unbound, and wakes its actor if it
        owes it something, once; one that is bound to another tunnel by now is left as it is. The map
        may yield the sessions in any order. */
    method DetachAll()
      requires forall s :: s in sessions.Values ==> s.Valid()
      modifies this`sessions, sessions.Values`tconn, sessions.Values`wakes
      ensures sessions == map[]
      ensures forall s :: s in old(sessions.Values) ==> s.Left(id)
    {
      hide B.Detach, Session.View, Session.Took, Session.Valid, Session.Owing;
      var rest := sessions.Values;
      sessions := map[];
      while rest != {}
        invariant rest <= old(sessions.Values) && sessions == map[]
        invariant forall s :: s in rest ==> s.tconn == old(s.tconn) && s.wakes == old(s.wakes)
        invariant forall s :: s in old(sessions.Values) - rest ==> s.Left(id)
        decreases |rest|
      {
        var s :| s in rest;
        s.Detach(id);
        rest := rest - {s};
      }
    }
  }

  datatype Key = Key(actor: string, sid: nat)

  /** What a frame of tunnel `tc` does to the session it names. */
  function Serve(s: B.Session, tc: nat, m: Msg, upstreamOk: bool, budget: nat): B.Effect {
    match m
    case Open => B.OnAttach(s, tc, 0, budget)
    case Attach(delivered) => B.OnAttach(s, tc, delivered, budget)
    case Data(offset, p) => B.OnData(s, offset, p, upstreamOk, budget)
    case Ack(offset) => B.Quiet(B.OnAck(s, offset))
    case CloseUp => B.Quiet(B.OnSidecarClose(s))
    case _ => B.Quiet(s)
  }

  method ServeFrame(s: Session, tc: nat, m: Msg, upstreamOk: bool, budget: nat)
    requires s.Valid()
    modifies s, s.downBuf
    ensures s.Valid() && s.Took(Serve(old(s.View()), tc, m, upstreamOk, budget))
    ensures s.Served(tc, m, upstreamOk, budget)
  {
    hide B.OnAttach, B.OnData, B.OnAck, Session.Answered, Session.TookData, Session.Trimmed;
    match m
    case Open => s.Attach(tc, 0, budget);
    case Attach(delivered) => s.Attach(tc, delivered, budget);
    case Data(offset, p) =>
      s.TakeData(offset, p, upstreamOk, budget);
    case Ack(offset) => s.OnDownstreamAck(offset);
    case CloseUp => s.OnSidecarClose(DIR_UP);
    case AttachOk(_) =>
    case CloseDown =>
  }

  /** A frame that creates the session it names: an OPEN, or an ATTACH of a sidecar that has nothing yet. */
  predicate Recreates(m: Msg) { m.Open? || m == Attach(0) }

  /** A new session bound to `tc`, which answers if it came with an ATTACH. */
  function Newborn(bufferBytes: nat, tc: nat, answers: bool, budget: nat): B.Effect {
    var s := B.Bind(B.New(bufferBytes), tc);
    if answers then B.OnAttach(s, tc, 0, budget) else B.Quiet(s)
  }

  class Broker {
    var sessions: map<Key, Session>
    const bufferBytes: nat

    constructor (bufferBytes: nat)
      ensures Valid() && sessions == map[] && this.bufferBytes == bufferBytes
    {
      sessions, this.bufferBytes := map[], bufferBytes;
    }

    ghost predicate Valid()
      reads this, sessions.Values, set s | s in sessions.Values :: s.downBuf
    {
      && (forall k :: k in sessions ==> sessions[k].Valid())
      && (forall j, k :: j in sessions && k in sessions && j != k ==>
            sessions[j] != sessions[k] && sessions[j].downBuf != sessions[k].downBuf)
    }

    /** The sessions under other keys are the same objects in the same state. */
    twostate predicate OthersKept(key: Key)
      reads this, sessions.Values, set s | s in sessions.Values :: s.downBuf
    {
      forall k :: k in old(sessions) && k != key ==>
        && k in sessions
        && sessions[k] == old(sessions[k])
        && unchanged(sessions[k], sessions[k].downBuf)
    }

    /** A session without any history, bound to tunnel `tc`, that has answered the ATTACH it was created for,
        unless the tunnel did not take the answer. */
    ghost predicate IsNew(s: Session, tc: nat, answers: bool, budget: nat)
      reads s, s.downBuf
    {
      && s.View() == B.New(bufferBytes).(tconn := if answers && budget == 0 then None else Some(tc))
      && s.sent == (if answers && budget > 0 then [AttachOk(0)] else [])
      && s.wakes == [] && s.upstream == [] && s.downBuf.stream == []
    }

    method NewSession(tc: nat, answers: bool, budget: nat) returns (s: Session)
      ensures fresh(s) && fresh(s.downBuf) && s.Valid()
      ensures var e := Newborn(bufferBytes, tc, answers, budget);
              s.View() == e.s && s.sent == e.sent && s.wakes == e.wakes
      ensures IsNew(s, tc, answers, budget)
    {
      hide B.OnAttach;
      s := new Session(bufferBytes);
      s.Bind(tc);
      if answers {
        s.Attach(tc, 0, budget);
      }
    }

    /** A frame for a session that is not in the table. */
    method Admit(key: Key, tc: nat, m: Msg, budget: nat) returns (reply: seq<Msg>)
      requires Valid() && key !in sessions
      modifies this
      ensures Valid() && OthersKept(key)
      ensures sessions.Keys == old(sessions.Keys) + if Recreates(m) then {key} else {}
      ensures reply == if m.Attach? && m.offset > 0 then [CloseDown] else []
      ensures Recreates(m) ==>
                var s, e := sessions[key], Newborn(bufferBytes, tc, m.Attach?, budget);
                && fresh(s) && s.View() == e.s && s.sent == e.sent && s.wakes == e.wakes
                && IsNew(s, tc, m.Attach?, budget)
    {
      hide Newborn, IsNew, Session.Valid, Session.View;
      reply := [];
      if Recreates(m) {
        var s := NewSession(tc, m.Attach?, budget);
        sessions := sessions[key := s];
      } else if m.Attach? {
        reply := [CloseDown];
      }
    }

    /** handleFrame with openSession and attachSession: what the frame does to its session, which binding
        also registers with the tunnel. `reply` is what is written straight to the tunnel. */
    method HandleFrame(key: Key, t: TunnelConn, m: Msg, upstreamOk: bool, budget: nat) returns (reply: seq<Msg>)
      requires Valid()
      modifies this, t, if key in sessions then {sessions[key], sessions[key].downBuf} else {}
      ensures Valid() && OthersKept(key)
      ensures sessions.Keys == old(sessions.Keys) + if Recreates(m) then {key} else {}
      ensures t.sessions == if (m.Open? || m.Attach?) && key in sessions
                            then old(t.sessions)[key.sid := sessions[key]]
                            else old(t.sessions)
      ensures key in old(sessions) ==>
                && sessions == old(sessions) && reply == []
                && old(sessions[key]).Took(Serve(old(sessions[key].View()), t.id, m, upstreamOk, budget))
                && old(sessions[key]).Served(t.id, m, upstreamOk, budget)
      ensures key !in old(sessions) ==> reply == if m.Attach? && m.offset > 0 then [CloseDown] else []
      ensures key !in old(sessions) && Recreates(m) ==>
                var s, e := sessions[key], Newborn(bufferBytes, t.id, m.Attach?, budget);
                && fresh(s) && s.View() == e.s && s.sent == e.sent && s.wakes == e.wakes
                && IsNew(s, t.id, m.Attach?, budget)
    {
      hide Serve, Newborn, IsNew, Session.Valid, Session.View, Session.Took, Session.Served;
      if key !in sessions {
        reply := Admit(key, t.id, m, budget);
      } else {
        ServeFrame(sessions[key], t.id, m, upstreamOk, budget);
        reply := [];
      }
      if (m.Open? || m.Attach?) && key in sessions {
        t.Register(key.sid, sessions[key]);
      }
    }
  }

  // ---------------------------------------------------------------- the state machine does the same

  /** The tunnel to which a frame's session writes. */
  function Writes(s: State, e: nat, m: Msg): Option<nat>
    requires s.incs != []
  {
    if m.Open? || m.Attach? then Some(e) else s.Cur().s.tconn
  }

  /** A step that changes nothing, wherever it might have written. */
  lemma ActNothing(s: State, b: B.Session, at: Option<nat>)
    requires s.incs != [] && (at.Some? ==> at.value < |s.tunnels|)
    ensures Act(s, B.Quiet(b), at, []) == SetSession(s, b) && SetSession(s, s.Cur().s) == s
  {
    var i := s.Cur();
    assert i.got + [] == i.got && i.sent + [] == i.sent;
    assert s.incs[|s.incs| - 1 := i] == s.incs;
    if at.Some? {
      var t := s.tunnels[at.value];
      assert t.down + Tag(|s.incs| - 1, []) == t.down;
      assert s.tunnels[at.value := t] == s.tunnels;
    }
  }

  /** For every frame, what the state machine's step does to the current incarnation of a session in the table
      is what HandleFrame does to the object, and its frames go to the same tunnel. */
  lemma HandleServes(s: State, e: nat, m: Msg, upstreamOk: bool, budget: nat)
    requires Bound(s) && e < |s.tunnels| && s.inTable
    ensures var failed := m.Data? && WritesUpstream(s.Cur().s, m.offset, m.payload) && !upstreamOk;
            Handle(s, e, m, upstreamOk, budget) ==
            Act(MarkFailure(s, failed), Serve(s.Cur().s, e, m, upstreamOk, budget), Writes(s, e, m), [])
  {
    hide Act, SetSession, B.OnAttach, B.OnData, B.OnAck, B.OnSidecarClose, WritesUpstream;
    assert s.incs[|s.incs| - 1 := s.Cur()] == s.incs;
    var b := s.Cur().s;
    ActNothing(s, b, b.tconn);
    match m
    case Ack(offset) => ActNothing(s, B.OnAck(b, offset), b.tconn);
    case CloseUp => ActNothing(s, B.OnSidecarClose(b), b.tconn);
    case _ =>
  }

  /** And for a session that is not in the table: it creates the same one or none, and writes the same. */
  lemma HandleAdmits(s: State, e: nat, m: Msg, upstreamOk: bool, budget: nat)
    requires Bound(s) && e < |s.tunnels| && !s.inTable
    ensures var s', n := Handle(s, e, m, upstreamOk, budget), Newborn(s.downMax, e, m.Attach?, budget);
            if Recreates(m) then
              s' == s.(inTable := true, incs := s.incs + [Incarnation(n.s, [], [], 0, false)],
                       tunnels := s.tunnels[e := PushDown(s.tunnels[e], Tag(|s.incs|, n.sent), n.broke)])
            else if m.Attach? then
              s' == s.(tunnels := s.tunnels[e := PushDown(s.tunnels[e], [Item(None, CloseDown)], false)])
            else s' == s
  {
    hide B.AttachReply, B.Transmit;
    var b := B.Bind(B.New(s.downMax), e);
    B.TransmitFacts(b, B.AttachReply(b, 0), budget);
    var i := Incarnation(b, [], [], 0, false);
    assert (s.incs + [i])[|s.incs| := AfterEffect(i, B.OnAttach(b, e, 0, budget), [])] ==
           s.incs + [AfterEffect(i, B.OnAttach(b, e, 0, budget), [])];
    var eff := B.OnAttach(b, e, 0, budget);
    assert AfterEffect(i, eff, []) == Incarnation(eff.s, [], [], 0, false);
    assert Create(s, e).Cur() == i && Create(s, e).incs == s.incs + [i];
    if m.Open? {
      assert s.tunnels[e].down + Tag(|s.incs|, []) == s.tunnels[e].down;
      assert s.tunnels[e := s.tunnels[e]] == s.tunnels;
    }
  }
}
